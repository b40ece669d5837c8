/**
  Exactly when a failing read of the room record can leave a round without its timeout: when the handler of the timeout
  takes a record it cannot read for a room that is gone. It then returns, and the clean-up removes the timeout.
 */
module RoomMachineReads {
  import opened RoomMachine
  import opened RoomMachineRuns
  import opened RoomMachineLate
  import Timers = RoomTimerProtocol

  /** How the handlers would read makes no difference to events in which no read is missed. */
  lemma {:induction false} SameEvents(s: State, events: seq<Event>, end: State, lenient: set<Timers.TimerKind>)
    requires Leads(s, events, end) && NoMissedRead(events)
    ensures Leads(s.(lenient := lenient), events, end.(lenient := lenient))
    decreases events
  {
    if events != [] {
      assert events[0] in events && forall e :: e in events[1..] ==> e in events;
      assert Apply(s.(lenient := lenient), events[0]) == Apply(s, events[0]).(lenient := lenient);
      SameEvents(Apply(s, events[0]), events[1..], end, lenient);
    }
  }

  /** From an idle room that is not played, events without a missed read lead to no round without its timeout. */
  lemma PlayedWithTimeout(s: State, events: seq<Event>, end: State)
    requires Inv(s) && s.section.None? && !BeingPlayed(s.world.data)
    requires Leads(s, events, end) && NoMissedRead(events)
    ensures !Stranded(end)
  {
    SameEvents(s, events, end, {});
    assert Inv(s.(lenient := {}));
    LeadsKeepsInv(s.(lenient := {}), events, end.(lenient := {}));
  }

  lemma {:induction false} FreshId(used: set<nat>) returns (id: nat)
    ensures forall i :: i in used ==> i < id
  {
    if used == {} {
      id := 0;
    } else {
      var i :| i in used;
      var j := FreshId(used - {i});
      id := if i < j then j else i + 1;
      assert forall x :: x in used ==> x == i || x in used - {i};
    }
  }

  /** A poller claims the timeout, its handler misses the record and returns, and the entry is cleaned up. */
  lemma MissedTimeout(s: State, id: nat) returns (events: seq<Event>, end: State)
    requires s.section.None? && Timers.RoundTimeout in s.world.timers && Timers.RoundTimeout in s.lenient
    requires id !in s.claims && forall i :: i in s.claims ==> !s.claims[i].finished
    ensures Leads(s, events, end) && end.world.data == s.world.data && Timers.RoundTimeout !in end.world.timers
    ensures NoCreation(events)
  {
    var claim, miss, clean := ClaimEntry(id, Timers.RoundTimeout, 0), MissedRead(id, true), CleanUp(id);
    var s1 := Apply(s, claim);
    var s2 := Apply(s1, miss);
    OneLeads(s, claim);
    OneLeads(s1, miss);
    OneLeads(s2, clean);
    LeadsOn(s, [claim], s1, [miss], s2);
    LeadsOn(s, [claim] + [miss], s2, [clean], Apply(s2, clean));
    events, end := [claim] + [miss] + [clean], Apply(s2, clean);
  }

  /**
    From every state in which a round is played with its timeout and no section is at work, a missed read can strand it.
   */
  lemma LenientReadStrands(s: State) returns (events: seq<Event>, end: State)
    requires s.section.None? && BeingPlayed(s.world.data)
    requires Timers.RoundTimeout in s.world.timers && Timers.RoundTimeout in s.lenient
    ensures Strands(s, events, end) && NoCreation(events)
  {
    var forgotten, s1 := PollersForget(s);
    var id := FreshId(s1.claims.Keys);
    var missed, s2 := MissedTimeout(s1, id);
    LeadsOn(s, forgotten, s1, missed, s2);
    events, end := forgotten + missed, s2;
  }

  /** A run from the empty store: a game of one song is started, its round is played, and then the timeout is missed. */
  lemma LenientReadStrandsRound(lenient: set<Timers.TimerKind>) returns (states: seq<State>, events: seq<Event>)
    requires Timers.RoundTimeout in lenient
    ensures MachineRun(states, events) && states[0].lenient == lenient && Stranded(states[|events|])
  {
    var e1, played := RoundIsPlayed();
    SameEvents(Empty({}), e1, played, lenient);
    var s := played.(lenient := lenient);
    var e2, end := LenientReadStrands(s);
    LeadsOn(Empty(lenient), e1, s, e2, end);
    events := e1 + e2;
    states := LeadsIsRun(Empty(lenient), events, end);
  }

  ghost predicate NeverStranded(lenient: set<Timers.TimerKind>) {
    forall states: seq<State>, events: seq<Event> :: MachineRun(states, events) && states[0].lenient == lenient ==>
      !Stranded(states[|events|])
  }

  /**
    For every choice of the handlers that take a record they cannot read for a missing one: no run leaves a round that
    is stored as playing without its timeout if and only if the handler of the timeout is not among them.
   */
  lemma NoStuckRoundIff(lenient: set<Timers.TimerKind>)
    ensures NeverStranded(lenient) <==> Timers.RoundTimeout !in lenient
  {
    if Timers.RoundTimeout in lenient {
      var states, events := LenientReadStrandsRound(lenient);
      assert MachineRun(states, events);
    } else {
      forall states: seq<State>, events: seq<Event> | MachineRun(states, events) && states[0].lenient == lenient
        ensures !Stranded(states[|events|])
      {
        RunIsLenient(states, events, |events|);
        NoStuckRound(states, events, |events|);
      }
    }
  }
}
