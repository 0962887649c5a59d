/** The values that the consensus code passes around: log entries, the two
    request kinds of the core protocol and their responses. */
module RaftTypes {

  datatype Option<+T> = None | Some(value: T)

  /** Only two of the value types reach a replicated log of a fixed cluster:
      client data, and the configuration entry, which records its own index. */
  datatype Value = App(data: int) | Conf(idx: nat)

  datatype Entry = Entry(term: nat, value: Value)

  datatype Role = Follower | Candidate | Leader

  datatype Request =
    | VoteReq(term: nat, src: nat, dst: nat, lastTerm: nat, lastIdx: nat, commit: nat)
    | AppendReq(term: nat, src: nat, dst: nat, prevTerm: nat, prevIdx: nat, commit: nat,
                entries: seq<Entry>)

  datatype Response =
    | VoteResp(term: nat, src: nat, dst: nat, next: nat, accepted: bool)
    | AppendResp(term: nat, src: nat, dst: nat, next: nat, accepted: bool)

  // Log indices start at 1; index 0 stands for "before the log" and has term 0.
  function TermAt(log: seq<Entry>, idx: nat): nat
    requires idx <= |log|
  {
    if idx == 0 then 0 else log[idx - 1].term
  }

  function LastTerm(log: seq<Entry>): nat {
    TermAt(log, |log|)
  }

  // The vote rule: is a log ending in (lastTerm, lastIdx) at least as up to date as `log`?
  predicate UpToDate(lastTerm: nat, lastIdx: nat, log: seq<Entry>) {
    lastTerm > LastTerm(log) || (lastTerm == LastTerm(log) && |log| <= lastIdx)
  }

  // How many leading elements of `entries`, laid over `log` after index `prev`, have the
  // term that the log already holds there.
  function Agreeing(log: seq<Entry>, prev: nat, entries: seq<Entry>): (j: nat)
    ensures j <= |entries|
    decreases |entries|
  {
    if entries == [] || prev >= |log| || log[prev].term != entries[0].term then 0
    else 1 + Agreeing(log, prev + 1, entries[1..])
  }

  // The log a follower ends with: cut at the first conflicting entry, then append the rest;
  // nothing is cut when nothing conflicts.
  function Merge(log: seq<Entry>, prev: nat, entries: seq<Entry>): seq<Entry>
    requires prev <= |log|
  {
    var j := Agreeing(log, prev, entries);
    if j == |entries| || prev + j > |log| then log
    else log[..prev + j] + entries[j..]
  }
}
