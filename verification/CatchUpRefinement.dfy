/** The catch-up loop of one node is the protocol's fetch steps taken without other stores in between. */
module CatchUpRefinement {
  import opened Basics
  import opened NodeSteps
  import opened Protocol
  import R = RaftNode

  /** One fetch answered by `entry`: asked for, arrived, taken. */
  ghost function FetchOnce(s: State, k: nat, entry: FetchedEntry): State
    requires k in s.sessions && s.sessions[k].missing > 0 && s.sessions[k].member in s.nodes
  {
    var asked := LogLength(s.nodes[s.sessions[k].member]) + 1;
    FetchTaken(SetFetch(SetFetch(s, k, Asked(asked)), k, Arrived(asked, entry)), k)
  }

  /** The session run to its end on the given answers; a missing answer aborts it. */
  ghost function RunSession(s: State, k: nat, answers: seq<Option<FetchedEntry>>): State
    requires k in s.sessions && s.sessions[k].member in s.nodes
    decreases s.sessions[k].missing
  {
    if s.sessions[k].missing == 0 then s
    else if answers == [] || answers[0] == None then s.(sessions := s.sessions - {k})
    else
      var t := FetchOnce(s, k, answers[0].value);
      if k in t.sessions then RunSession(t, k, answers[1..]) else t
  }

  /** One undisturbed iteration takes exactly the protocol's three steps. */
  lemma FetchOnceIsThreeSteps(s: State, k: nat, entry: FetchedEntry)
    requires Enabled(s, SendFetch(k)) && s.sessions[k].leader.Some?
    requires var ses := s.sessions[k];
             && ses.leader.value != ses.member && ses.leader.value in s.nodes
             && OnFetch(s.nodes[ses.leader.value], FetchEntry(ses.term, LogLength(s.nodes[ses.member]) + 1)) == Some(entry)
    ensures var sent := Apply(s, SendFetch(k));
            && Enabled(sent, HandleFetch(k))
            && var arrived := Apply(sent, HandleFetch(k));
               && Enabled(arrived, TakeFetchReply(k))
               && Apply(arrived, TakeFetchReply(k)) == FetchOnce(s, k, entry)
  {
    hide LogLength, OnFetch, AddCommit, Accepts;
    var ses, sent := s.sessions[k], Apply(s, SendFetch(k));
    var asked := LogLength(s.nodes[ses.member]) + 1;
    assert sent == SetFetch(s, k, Asked(asked));
    AskedIsAnswered(sent, k, entry);
    hide Apply, Enabled, FetchOnce;
    assert Apply(sent, HandleFetch(k)) == SetFetch(sent, k, Arrived(asked, entry));
    ArrivedIsTaken(Apply(sent, HandleFetch(k)), k);
    assert FetchTaken(Apply(sent, HandleFetch(k)), k) == FetchOnce(s, k, entry) by { OnceIsTaken(s, k, entry); }
  }

  lemma OnceIsTaken(s: State, k: nat, entry: FetchedEntry)
    requires k in s.sessions && s.sessions[k].missing > 0 && s.sessions[k].member in s.nodes
    ensures var asked := LogLength(s.nodes[s.sessions[k].member]) + 1;
            FetchOnce(s, k, entry) == FetchTaken(SetFetch(SetFetch(s, k, Asked(asked)), k, Arrived(asked, entry)), k)
  {
    hide FetchTaken, LogLength;
  }

  lemma AskedIsAnswered(s: State, k: nat, entry: FetchedEntry)
    requires k in s.sessions && s.sessions[k].fetch.Asked? && s.sessions[k].leader.Some?
    requires s.sessions[k].leader.value != s.sessions[k].member && s.sessions[k].leader.value in s.nodes
    requires OnFetch(s.nodes[s.sessions[k].leader.value], FetchEntry(s.sessions[k].term, s.sessions[k].fetch.index)) == Some(entry)
    ensures Enabled(s, HandleFetch(k))
    ensures Apply(s, HandleFetch(k)) == SetFetch(s, k, Arrived(s.sessions[k].fetch.index, entry))
  {
    hide OnFetch;
  }

  lemma ArrivedIsTaken(s: State, k: nat)
    requires k in s.sessions && s.sessions[k].fetch.Arrived? && s.sessions[k].member in s.nodes && s.sessions[k].missing > 0
    ensures Enabled(s, TakeFetchReply(k)) && Apply(s, TakeFetchReply(k)) == FetchTaken(s, k)
  {
    hide FetchTaken;
  }

  lemma FetchOnceEffect(s: State, k: nat, entry: FetchedEntry)
    requires k in s.sessions && s.sessions[k].missing > 0 && s.sessions[k].member in s.nodes
    ensures var ses := s.sessions[k]; var t := FetchOnce(s, k, entry);
            var stored := Accepts(CountedLength(s.nodes[ses.member].log) + 1, entry);
            && (k in t.sessions <==> stored)
            && (stored ==> t.sessions[k].member == ses.member && t.sessions[k].missing == ses.missing - 1)
            && ses.member in t.nodes && t.nodes == s.nodes[ses.member := t.nodes[ses.member]]
            && t.nodes[ses.member].log == s.nodes[ses.member].log + (if stored then [entry.newObject] else [])
  {
    hide CountedLength;
  }

  /** The session has nothing left to fetch, gets no answer, or gets a wrong one. */
  ghost predicate Stops(s: State, k: nat, answers: seq<Option<FetchedEntry>>)
    requires k in s.sessions && s.sessions[k].member in s.nodes
  {
    || s.sessions[k].missing == 0 || answers == [] || answers[0] == None
    || !Accepts(CountedLength(s.nodes[s.sessions[k].member].log) + 1, answers[0].value)
  }

  /** One unfolding of the session, and one of the loop. */
  lemma RunSessionStep(s: State, k: nat, answers: seq<Option<FetchedEntry>>)
    requires k in s.sessions && s.sessions[k].member in s.nodes && s.sessions[k].missing > 0
    requires answers != [] && answers[0].Some?
    ensures var t := FetchOnce(s, k, answers[0].value);
            && (k in t.sessions ==> t.sessions[k].member in t.nodes && t.sessions[k].missing < s.sessions[k].missing)
            && RunSession(s, k, answers) == if k in t.sessions then RunSession(t, k, answers[1..]) else t
  {
    hide CountedLength, Accepts;
  }

  lemma CaughtUpStep(log: Log, missing: nat, answers: seq<Option<FetchedEntry>>)
    requires missing > 0 && answers != [] && answers[0].Some?
    ensures R.CaughtUp(log, missing, answers) ==
            if Accepts(CountedLength(log) + 1, answers[0].value)
            then R.CaughtUp(log + [answers[0].value.newObject], missing - 1, answers[1..])
            else (log, false)
  {
    hide CountedLength, Accepts;
  }

  lemma SessionStops(s: State, k: nat, answers: seq<Option<FetchedEntry>>)
    requires k in s.sessions && s.sessions[k].member in s.nodes && Stops(s, k, answers)
    ensures var ses := s.sessions[k]; var t := RunSession(s, k, answers);
            && t.nodes == s.nodes
            && R.CaughtUp(s.nodes[ses.member].log, ses.missing, answers) == (s.nodes[ses.member].log, ses.missing == 0)
            && (k in t.sessions <==> ses.missing == 0) && (k in t.sessions ==> t.sessions[k].missing == 0)
  {
    hide CountedLength, FetchOnce, Accepts;
    if s.sessions[k].missing == 0 || answers == [] || answers[0] == None {
    } else {
      RunSessionStep(s, k, answers);
      CaughtUpStep(s.nodes[s.sessions[k].member].log, s.sessions[k].missing, answers);
      WrongEntryStops(s, k, answers[0].value);
      hide RunSession, R.CaughtUp;
    }
  }

  lemma WrongEntryStops(s: State, k: nat, entry: FetchedEntry)
    requires k in s.sessions && s.sessions[k].member in s.nodes && s.sessions[k].missing > 0
    requires !Accepts(CountedLength(s.nodes[s.sessions[k].member].log) + 1, entry)
    ensures FetchOnce(s, k, entry) == s.(sessions := s.sessions - {k})
  {
    hide CountedLength;
    assert FetchOnce(s, k, entry).sessions == s.sessions - {k};
  }

  lemma SessionGoesOn(s: State, k: nat, answers: seq<Option<FetchedEntry>>)
    requires k in s.sessions && s.sessions[k].member in s.nodes && !Stops(s, k, answers)
    ensures var ses := s.sessions[k]; var t := FetchOnce(s, k, answers[0].value);
            && k in t.sessions && t.sessions[k].member == ses.member && t.sessions[k].missing == ses.missing - 1
            && ses.member in t.nodes && t.nodes == s.nodes[ses.member := t.nodes[ses.member]]
            && RunSession(s, k, answers) == RunSession(t, k, answers[1..])
            && R.CaughtUp(s.nodes[ses.member].log, ses.missing, answers)
               == R.CaughtUp(t.nodes[ses.member].log, ses.missing - 1, answers[1..])
  {
    hide FetchOnce, CountedLength, Accepts, RunSession, R.CaughtUp;
    FetchOnceEffect(s, k, answers[0].value);
    RunSessionStep(s, k, answers);
    CaughtUpStep(s.nodes[s.sessions[k].member].log, s.sessions[k].missing, answers);
  }

  /** The loop stores what the session stores, and confirms exactly when the session is left to finish. */
  lemma {:induction false} LoopRefinesSession(s: State, k: nat, answers: seq<Option<FetchedEntry>>)
    requires k in s.sessions && s.sessions[k].member in s.nodes
    ensures var ses := s.sessions[k]; var t := RunSession(s, k, answers);
            var caughtUp := R.CaughtUp(s.nodes[ses.member].log, ses.missing, answers);
            && ses.member in t.nodes && t.nodes[ses.member].log == caughtUp.0
            && (caughtUp.1 <==> k in t.sessions)
            && (k in t.sessions ==> t.sessions[k].missing == 0)
    decreases s.sessions[k].missing
  {
    hide FetchOnce, RunSession, R.CaughtUp;
    if Stops(s, k, answers) {
      SessionStops(s, k, answers);
    } else {
      SessionGoesOn(s, k, answers);
      hide Stops;
      LoopRefinesSession(FetchOnce(s, k, answers[0].value), k, answers[1..]);
    }
  }

  /** Meanwhile no other node changes. */
  lemma {:induction false} SessionTouchesOneNode(s: State, k: nat, answers: seq<Option<FetchedEntry>>)
    requires k in s.sessions && s.sessions[k].member in s.nodes
    ensures var m := s.sessions[k].member; var t := RunSession(s, k, answers);
            m in t.nodes && t.nodes == s.nodes[m := t.nodes[m]]
    decreases s.sessions[k].missing
  {
    hide FetchOnce, RunSession, R.CaughtUp;
    if Stops(s, k, answers) {
      SessionStops(s, k, answers);
    } else {
      SessionGoesOn(s, k, answers);
      hide Stops;
      SessionTouchesOneNode(FetchOnce(s, k, answers[0].value), k, answers[1..]);
    }
  }
}
