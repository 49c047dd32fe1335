/**
 * The job registry as the lookup tool sees it: entries fetched by key in one of
 * two index modes, and the worker-node field the tool may clear.
 * The storage engine behind job_registry_init and job_registry_get is not part
 * of this model; a registry file is a pair of maps from key to entry.
 */
module Registry {
  import opened Wrappers

  /** job_registry_index_mode: look entries up by BLAH id or by batch-system id. */
  datatype IndexMode = ByBlahId | ByBatchId

  const NUL: char := '\0'

  /** A fixed-size character array of a C record, such as the entry's wn_addr. */
  type CBuffer = s: seq<char> | |s| > 0 witness [NUL]

  /** The C string held in a buffer: its characters up to the first NUL. */
  function CString(buf: seq<char>): (s: string)
    ensures |s| <= |buf| && s == buf[..|s|]
    ensures NUL !in s
    ensures |s| == |buf| || buf[|s|] == NUL
  {
    if buf == [] || buf[0] == NUL then []
    else [buf[0]] + CString(buf[1..])
  }

  /** A registry entry. The tool reads none of its fields and may clear wn_addr;
      the remaining fields of job_registry_entry are carried in otherFields. */
  datatype Entry = Entry(blahId: string, batchId: string, wnAddr: CBuffer,
                         otherFields: map<string, string>)

  /** The entry with its worker-node address truncated to the empty string by
      writing NUL into the first character of wn_addr. */
  function Redacted(e: Entry): Entry
  {
    e.(wnAddr := e.wnAddr[0 := NUL])
  }

  /** The entry as serialised: redacted unless the worker node was asked for. */
  function Shown(e: Entry, workerNode: bool): Entry
  {
    if workerNode then e else Redacted(e)
  }

  /** An opened registry file: one index per mode. */
  datatype Store = Store(byBlahId: map<string, Entry>, byBatchId: map<string, Entry>)

  /** job_registry_get: the entry stored under the key in the index the handle
      was opened with, or None when there is none. */
  function Get(s: Store, mode: IndexMode, key: string): Option<Entry>
  {
    var index := if mode == ByBlahId then s.byBlahId else s.byBatchId;
    if key in index then Some(index[key]) else None
  }

  /** Redaction empties the address the serialiser can read, keeps the bytes of
      the buffer after the first, and changes no other field of the record; with
      the worker node asked for, the entry is passed unchanged. */
  lemma ShownEntry(e: Entry, workerNode: bool)
    ensures workerNode ==> Shown(e, workerNode) == e
    ensures !workerNode ==> (CString(Shown(e, workerNode).wnAddr) == []
      && Shown(e, workerNode).wnAddr[1..] == e.wnAddr[1..])
    ensures Shown(e, workerNode).blahId == e.blahId && Shown(e, workerNode).batchId == e.batchId
    ensures Shown(e, workerNode).otherFields == e.otherFields
    ensures |Shown(e, workerNode).wnAddr| == |e.wnAddr|
  {
  }
}
