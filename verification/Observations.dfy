/** What a body remembers of the lines counted on it besides their template: the window of their event times and
    their member labels, whatever the order (crates/logdrain/src/cluster.rs:64-103 and 119-124). */
module Observations {
  import opened Wrappers
  import opened Templates
  import opened Index

  /** The bounds are the least and the greatest of the events and of the window the body started with. */
  ghost predicate WindowOf(b: Body, events: set<nat>, first: nat, last: nat) {
    && (forall e | e in events :: b.eventFirst <= e <= b.eventLast)
    && (b.eventFirst == first || b.eventFirst in events)
    && (b.eventLast == last || b.eventLast in events)
    && last <= b.eventLast
    && ((forall e | e in events :: e <= EVENT_UNSET) && first <= EVENT_UNSET ==> b.eventFirst <= first)
  }

  ghost predicate Distinct(labels: seq<string>) {
    forall i, j | 0 <= i < j < |labels| :: labels[i] != labels[j]
  }

  /** The members are those the body started with and the labels recorded since, each once. */
  ghost predicate MembersOf(b: Body, labels: set<string>, start: seq<string>) {
    && (forall m :: m in b.members <==> m in start || m in labels)
    && (Distinct(start) ==> Distinct(b.members))
  }

  function EventsOf(event: Option<nat>): set<nat> {
    if event.Some? then {event.value} else {}
  }

  function LabelsOf(member: Option<string>): set<string> {
    if member.Some? then {member.value} else {}
  }

  lemma NewObserves(id: Id, r: Request, tick: nat)
    ensures WindowOf(NewBody(id, r, tick), EventsOf(r.event), EVENT_UNSET, 0)
    ensures MembersOf(NewBody(id, r, tick), LabelsOf(r.member), [])
  {
    LabelledObserves(NewBody(id, r.(member := None), tick), {}, [], r.member);
    assert {} + LabelsOf(r.member) == LabelsOf(r.member);
  }

  /** A touch with its event widens the window by exactly that event. */
  lemma TouchObserves(b: Body, events: set<nat>, first: nat, last: nat, tick: nat, event: Option<nat>)
    requires WindowOf(b, events, first, last)
    ensures WindowOf(Observed(Touched(b, tick), event), events + EventsOf(event), first, last)
    ensures Observed(Touched(b, tick), event).members == b.members
  {
  }

  lemma LabelledObserves(b: Body, labels: set<string>, start: seq<string>, member: Option<string>)
    requires MembersOf(b, labels, start)
    ensures MembersOf(Labelled(b, member), labels + LabelsOf(member), start)
  {
    if member.Some? && member.value !in b.members {
      assert Labelled(b, member).members == b.members + [member.value];
      assert forall i | 0 <= i < |b.members| :: b.members[i] in b.members;
    }
  }

  /** A whole match. */
  lemma MatchObserves(b: Body, r: Request, tick: nat, w: string, events: set<nat>, first: nat, last: nat,
                      labels: set<string>, start: seq<string>)
    requires |b.tokens| == |r.tokens| && WindowOf(b, events, first, last) && MembersOf(b, labels, start)
    ensures WindowOf(Matched(b, r, tick, w), events + EventsOf(r.event), first, last)
    ensures MembersOf(Matched(b, r, tick, w), labels + LabelsOf(r.member), start)
  {
    hide WouldGeneralize, Generalize;
    TouchObserves(b, events, first, last, tick, r.event);
    RewriteObserves(Observed(Touched(b, tick), r.event), r, WouldGeneralize(b.tokens, r.tokens, w), w,
                    events + EventsOf(r.event), first, last, labels, start);
  }

  /** The write section records the label and leaves the window alone. */
  lemma RewriteObserves(b: Body, r: Request, needs: bool, w: string, events: set<nat>, first: nat, last: nat,
                        labels: set<string>, start: seq<string>)
    requires |b.tokens| == |r.tokens| && WindowOf(b, events, first, last) && MembersOf(b, labels, start)
    ensures WindowOf(Rewritten(b, r, needs, w), events, first, last)
    ensures MembersOf(Rewritten(b, r, needs, w), labels + LabelsOf(r.member), start)
  {
    hide Generalize;
    var t := if needs then b.(tokens := Generalize(b.tokens, r.tokens, w)) else b;
    LabelledObserves(t, labels, start, r.member);
  }
}
