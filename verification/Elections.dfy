/** How an election comes out, for a cluster of any size and any order of the answers, refusals
    among them. */
module Elections {
  import opened RaftTypes
  import opened ServerSpec

  // ---------------------------------------------------------------- counting

  // A server after some responses, one by one.
  function Hearing(g: Guards, s: Server, answers: seq<Response>): Server
    decreases |answers|
  {
    if answers == [] then s else Hearing(g, HandlePeerResp(g, s, answers[0]).s, answers[1..])
  }

  function Grants(answers: seq<Response>): nat {
    if answers == [] then 0 else (if answers[0].accepted then 1 else 0) + Grants(answers[1..])
  }

  // Answers to the ballots of term t.
  ghost predicate Votes(answers: seq<Response>, t: nat) {
    forall k :: 0 <= k < |answers| ==> answers[k].VoteResp? && answers[k].term == t
  }

  // A candidate that still counts, and has no majority yet.
  ghost predicate Counting(s: Server) {
    s.role == Candidate && !s.electionDone && 2 * s.granted <= |s.peers|
  }

  // What one more answer does to a candidate.
  lemma OneAnswer(g: Guards, s: Server, answer: Response)
    requires Counting(s) && answer.VoteResp? && answer.term == s.term
    ensures var r := HandlePeerResp(g, s, answer).s;
            var granted := s.granted + if answer.accepted then 1 else 0;
            && r.term == s.term && |r.peers| == |s.peers|
            && if 2 * granted > |s.peers| then r.role == Leader && r.electionDone
               else r.role == Candidate && r.granted == granted && r.responded == s.responded + 1
                    && (r.electionDone <==> s.responded + 1 >= |s.peers|)
  {
    hide TakeOffice, RequestAppendAll;
    var t := TakeOffice(g, HandlingOfVote(s, answer.accepted).(electionDone := true));
    InOffice(g, HandlingOfVote(s, answer.accepted).(electionDone := true));
    AllOnlySends(t);
  }

  lemma InOffice(g: Guards, s: Server)
    ensures var t := TakeOffice(g, s);
            t.role == Leader && t.electionDone == s.electionDone && t.term == s.term && |t.peers| == |s.peers|
            && t.halted == s.halted && t.id == s.id && t.leader == Some(s.id)
  {
  }

  // A leader counts no more votes.
  lemma {:induction false} LeaderGoesOn(g: Guards, s: Server, answers: seq<Response>)
    requires s.role == Leader && s.electionDone && Votes(answers, s.term)
    ensures var r := Hearing(g, s, answers); r.role == Leader && r.term == s.term
    decreases |answers|
  {
    if answers != [] {
      LeaderGoesOn(g, HandlePeerResp(g, s, answers[0]).s, answers[1..]);
    }
  }

  // As long as not everyone has answered, the count goes on.
  lemma {:induction false} CountDecides(g: Guards, s: Server, answers: seq<Response>)
    requires Counting(s) && Votes(answers, s.term) && s.responded + |answers| <= |s.peers|
    ensures var r := Hearing(g, s, answers);
            && r.term == s.term && (r.role == Leader || r.role == Candidate)
            && (r.role == Leader <==> 2 * (s.granted + Grants(answers)) > |s.peers|)
    decreases |answers|
  {
    hide HandlePeerResp;
    if answers != [] {
      OneAnswer(g, s, answers[0]);
      var r := HandlePeerResp(g, s, answers[0]).s;
      if r.role == Leader {
        LeaderGoesOn(g, r, answers[1..]);
      } else if answers[1..] != [] {
        CountDecides(g, r, answers[1..]);
      }
    }
  }

  // Standing: the only member of a cluster leads at once, any other server counts.
  lemma Stands(g: Guards, s: Server)
    requires s.role != Leader && s.peers != []
    ensures var r := ElectionTimeout(g, s).s;
            && r.term == s.term + 1 && |r.peers| == |s.peers|
            && if |s.peers| == 1 then r.role == Leader && r.electionDone
               else Counting(r) && r.granted == r.responded == 1 && r.timerOn
  {
    hide TakeOffice, RequestAppendAll;
    var s1 := StandForElection(s).(electionDone := true);
    InOffice(g, s1);
    AllOnlySends(TakeOffice(g, s1));
  }

  // A candidate that has heard any of the others, in any order, leads exactly when the votes, its
  // own among them, are a strict majority of the cluster; until then it stays a candidate.
  lemma ElectionOutcome(g: Guards, s: Server, answers: seq<Response>)
    requires s.role != Leader && |answers| < |s.peers| && Votes(answers, s.term + 1)
    ensures var r := Hearing(g, ElectionTimeout(g, s).s, answers);
            && r.term == s.term + 1 && (r.role == Leader || r.role == Candidate)
            && (r.role == Leader <==> 2 * (1 + Grants(answers)) > |s.peers|)
  {
    hide ElectionTimeout, HandlePeerResp;
    Stands(g, s);
    var r := ElectionTimeout(g, s).s;
    if |s.peers| > 1 { CountDecides(g, r, answers); }
  }

  // ---------------------------------------------------------------- ballots

  // The servers other than id, in ascending order.
  function Other(id: nat, x: nat): nat {
    if x < id then x else x + 1
  }

  // A candidate's ballot for one other server: its new term and the end of its log.
  function BallotFor(s: Server, j: nat): Request {
    VoteReq(s.term + 1, s.id, j, LastTerm(s.log), |s.log|, s.commitIdx)
  }

  lemma {:induction false} BallotsFrom(s: Server, j: nat)
    requires s.id < |s.peers| && j <= |s.peers|
    ensures var qs := VoteRequestsFrom(s, j);
            var skipped := if j <= s.id then j else j - 1;
            && |qs| == |s.peers| - 1 - skipped
            && forall x :: 0 <= x < |qs| ==>
                 qs[x] == VoteReq(s.term, s.id, Other(s.id, skipped + x), LastTerm(s.log), |s.log|, s.commitIdx)
    decreases |s.peers| - j
  {
    if j < |s.peers| {
      BallotsFrom(s, j + 1);
    }
  }

  // Each of the other servers gets one ballot, and nobody else.
  lemma EveryoneIsAsked(g: Guards, s: Server)
    requires s.role != Leader && s.id < |s.peers| && |s.peers| > 1
    ensures var qs := ElectionTimeout(g, s).sends;
            && |qs| == |s.peers| - 1
            && forall x :: 0 <= x < |qs| ==> qs[x] == BallotFor(s, Other(s.id, x))
  {
    BallotsFrom(StandForElection(s), 0);
  }

  // ---------------------------------------------------------------- voting

  // Section 5.4.1: the log with the later last term is more up to date, of two with the same the longer.
  ghost predicate NotBehind(a: seq<Entry>, b: seq<Entry>) {
    LastTerm(a) > LastTerm(b) || (LastTerm(a) == LastTerm(b) && |a| >= |b|)
  }

  lemma NotBehindIsTotal(a: seq<Entry>, b: seq<Entry>, c: seq<Entry>)
    ensures NotBehind(a, a) && (NotBehind(a, b) || NotBehind(b, a))
    ensures NotBehind(a, b) && NotBehind(b, c) ==> NotBehind(a, c)
  {
  }

  // The ballot finds a server that is not in a later term and has not voted for another in this one.
  ghost predicate Free(v: Server, q: Request) {
    v.term < q.term || (v.term == q.term && (v.votedFor == None || v.votedFor == Some(q.src)))
  }

  // Whatever a server's state, what its vote depends on; a granted one is on disk with its term.
  lemma VoteAnswered(g: Guards, v: Server, q: Request)
    requires q.VoteReq?
    ensures var ans := ProcessReq(g, v, q);
            && ans.resp.Some? && ans.resp.value.VoteResp? && ans.resp.value.src == v.id && ans.resp.value.dst == q.src
            && ans.resp.value.term == ans.out.s.term == (if q.term > v.term then q.term else v.term)
            && ans.out.sends == [] && ans.out.s.log == v.log
            && ans.resp.value.next == (if ans.resp.value.accepted then |v.log| + 1 else 0)
            && (forall log :: q.lastTerm == LastTerm(log) && q.lastIdx == |log| ==>
                  (ans.resp.value.accepted <==> Free(v, q) && NotBehind(log, v.log)))
            && (ans.resp.value.accepted ==> ans.out.s.votedFor == Some(q.src) && ans.out.s.savedCommit == v.commitIdx)
            && (q.term > v.term ==> ans.out.s.role == Follower && ans.out.s.timerOn)
            && (q.term <= v.term ==> ans.out.s.role == v.role && ans.out.s.timerOn == v.timerOn)
            && (!ans.resp.value.accepted ==>
                  ans.out.s.votedFor == if q.term > v.term then None else v.votedFor)
  {
  }

  // ---------------------------------------------------------------- a whole election

  ghost predicate Supports(v: Server, s: Server) {
    && NotBehind(s.log, v.log)
    && (v.term <= s.term || v.votedFor == None || v.votedFor == Some(s.id))
  }

  ghost function Supporters(voters: seq<Server>, s: Server): nat {
    if voters == [] then 0 else (if Supports(voters[0], s) then 1 else 0) + Supporters(voters[1..], s)
  }

  // What the voters answer to the candidate's ballots.
  function Answers(g: Guards, voters: seq<Server>, s: Server): seq<Response> {
    if voters == [] then []
    else
      var ans := ProcessReq(g, voters[0], BallotFor(s, voters[0].id)).resp;
      (if ans.Some? then [ans.value] else []) + Answers(g, voters[1..], s)
  }

  lemma {:induction false} AnswersCount(g: Guards, voters: seq<Server>, s: Server)
    requires forall k :: 0 <= k < |voters| ==> voters[k].term <= s.term + 1
    ensures var answers := Answers(g, voters, s);
            |answers| == |voters| && Votes(answers, s.term + 1) && Grants(answers) == Supporters(voters, s)
    decreases |voters|
  {
    hide ProcessReq, Free, NotBehind;
    if voters != [] {
      var v := voters[0];
      VoteAnswered(g, v, BallotFor(s, v.id));
      Support(v, s);
      var ans := ProcessReq(g, v, BallotFor(s, v.id)).resp;
      assert BallotFor(s, v.id).lastIdx == |s.log|;
      AnswersCount(g, voters[1..], s);
      var rest := Answers(g, voters[1..], s);
      assert ([ans.value] + rest)[1..] == rest;
    }
  }

  lemma Support(v: Server, s: Server)
    requires v.term <= s.term + 1
    ensures Supports(v, s) <==> Free(v, BallotFor(s, v.id)) && NotBehind(s.log, v.log)
  {
  }

  // Any servers, none of them in a later term than the candidate's new one, hear the candidate and
  // are heard, in any order: it leads exactly when those whose logs are not ahead of its own and
  // who have not voted for another make a strict majority together with itself.
  lemma CampaignOutcome(g: Guards, s: Server, voters: seq<Server>)
    requires s.role != Leader && |voters| < |s.peers|
    requires forall k :: 0 <= k < |voters| ==> voters[k].term <= s.term + 1
    ensures var r := Hearing(g, ElectionTimeout(g, s).s, Answers(g, voters, s));
            r.role == Leader <==> 2 * (1 + Supporters(voters, s)) > |s.peers|
  {
    hide ElectionTimeout, HandlePeerResp, ProcessReq;
    AnswersCount(g, voters, s);
    ElectionOutcome(g, s, Answers(g, voters, s));
  }

  // Of any servers, one has a log that is behind none of the others.
  lemma {:induction false} SomeoneIsAhead(voters: seq<Server>) returns (i: nat)
    requires voters != []
    ensures i < |voters| && forall k :: 0 <= k < |voters| ==> NotBehind(voters[i].log, voters[k].log)
    decreases |voters|
  {
    hide NotBehind;
    var m := |voters| - 1;
    NotBehindIsTotal(voters[m].log, voters[m].log, voters[m].log);
    i := m;
    if m > 0 {
      var j := SomeoneIsAhead(voters[..m]);
      assert forall k :: 0 <= k < m ==> voters[..m][k] == voters[k];
      NotBehindIsTotal(voters[j].log, voters[m].log, voters[m].log);
      if NotBehind(voters[j].log, voters[m].log) {
        i := j;
      } else {
        forall k | 0 <= k < m ensures NotBehind(voters[m].log, voters[k].log) {
          NotBehindIsTotal(voters[m].log, voters[j].log, voters[k].log);
        }
      }
    }
  }
}
