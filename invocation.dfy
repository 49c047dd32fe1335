/**
 * The command line of blah_job_registry_lkup: leading flag tokens, then the
 * key. Only the first two characters of a token are ever read.
 */
module Invocation {
  import opened Wrappers
  import opened Registry

  /** The character at position i of a C string; past its end, the terminating NUL. */
  function CharAt(s: string, i: nat): char
  {
    if i < |s| then s[i] else NUL
  }

  /** A token that starts with '-'. */
  predicate IsFlag(token: string)
  {
    CharAt(token, 0) == '-'
  }

  /** The one letter of a flag token that is examined: its second character. */
  function FlagLetter(token: string): char
  {
    CharAt(token, 1)
  }

  /** The position of the first token at or after `from` that is not a flag,
      or |argv| when every token from there on is a flag. */
  function FirstNonFlag(argv: seq<string>, from: nat): (k: nat)
    requires from <= |argv|
    ensures from <= k <= |argv|
    ensures forall j :: from <= j < k ==> IsFlag(argv[j])
    ensures k == |argv| || !IsFlag(argv[k])
    decreases |argv| - from
  {
    if from == |argv| || !IsFlag(argv[from]) then from
    else FirstNonFlag(argv, from + 1)
  }

  /** A position with only flags before it and no flag at it is FirstNonFlag. */
  lemma {:induction false} FirstNonFlagIs(argv: seq<string>, from: nat, k: nat)
    requires from <= k <= |argv|
    requires forall j :: from <= j < k ==> IsFlag(argv[j])
    requires k == |argv| || !IsFlag(argv[k])
    ensures FirstNonFlag(argv, from) == k
    decreases k - from
  {
    if from < k {
      FirstNonFlagIs(argv, from + 1, k);
    }
  }

  /** Some token of argv[lo..hi] has c as its flag letter. */
  function HasFlagIn(argv: seq<string>, lo: nat, hi: nat, c: char): bool
    requires lo <= hi <= |argv|
    decreases hi - lo
  {
    hi > lo && (HasFlagIn(argv, lo, hi - 1, c) || FlagLetter(argv[hi - 1]) == c)
  }

  /** The options the flag scan settles on. */
  datatype Options = Options(mode: IndexMode, workerNode: bool, endpoint: bool, key: Option<string>)

  /** The options of a command line argv (argv[0] is the program name): the
      flags are the tokens before the first non-flag one, which is the key. */
  function ParseOptions(argv: seq<string>): Options
    requires |argv| >= 1
  {
    var k := FirstNonFlag(argv, 1);
    Options(if HasFlagIn(argv, 1, k, 'b') then ByBatchId else ByBlahId,
            HasFlagIn(argv, 1, k, 'w'),
            HasFlagIn(argv, 1, k, 'n'),
            if k < |argv| then Some(argv[k]) else None)
  }

  /** HasFlagIn read as a quantifier: some token in the range has the letter. */
  lemma {:induction false} HasFlagInMeans(argv: seq<string>, lo: nat, hi: nat, c: char)
    requires lo <= hi <= |argv|
    ensures HasFlagIn(argv, lo, hi, c) <==> exists j :: lo <= j < hi && FlagLetter(argv[j]) == c
    decreases hi - lo
  {
    if hi > lo {
      HasFlagInMeans(argv, lo, hi - 1, c);
      if FlagLetter(argv[hi - 1]) == c {
        assert lo <= hi - 1 < hi && FlagLetter(argv[hi - 1]) == c;
      }
    }
  }

  /** What each option means: -b, -w and -n are each set exactly when some leading
      flag token has that letter second; the key is the first non-flag token, and
      absent when every token is a flag. */
  lemma FlagScanMeaning(argv: seq<string>)
    requires |argv| >= 1
    ensures var o, k := ParseOptions(argv), FirstNonFlag(argv, 1);
      && (o.mode == ByBatchId <==> exists j :: 1 <= j < k && FlagLetter(argv[j]) == 'b')
      && (o.workerNode <==> exists j :: 1 <= j < k && FlagLetter(argv[j]) == 'w')
      && (o.endpoint <==> exists j :: 1 <= j < k && FlagLetter(argv[j]) == 'n')
      && (o.key.Some? <==> k < |argv|)
      && (o.key.Some? ==> o.key.value == argv[k] && !IsFlag(o.key.value))
      && (forall j :: 1 <= j < k ==> IsFlag(argv[j]))
  {
    var k := FirstNonFlag(argv, 1);
    HasFlagInMeans(argv, 1, k, 'b');
    HasFlagInMeans(argv, 1, k, 'w');
    HasFlagInMeans(argv, 1, k, 'n');
  }

  /** With no flag before the key, the lookup is by BLAH id, redacted, and not an
      endpoint query. */
  lemma DefaultOptions(argv: seq<string>)
    requires |argv| >= 2 && !IsFlag(argv[1])
    ensures ParseOptions(argv) == Options(ByBlahId, false, false, Some(argv[1]))
  {
  }

  /** A token's letters after the second are not read: "-bw" selects the batch
      index and does not ask for the worker node; "-x" is ignored. */
  lemma OnlySecondCharacterCounts()
    ensures ParseOptions(["lkup", "-bw", "-x", "123"]) == Options(ByBatchId, false, false, Some("123"))
  {
    assert FirstNonFlag(["lkup", "-bw", "-x", "123"], 1) == 3;
  }
}
