/** The mutable cluster body (crates/logdrain/src/cluster.rs:38-174). */
module Cluster {
  import opened Wrappers
  import opened Sequences
  import opened Tokenizer
  import opened Rendering
  import opened Templates
  import opened Index
  import opened Snapshots

  class ClusterInner {
    const id: Id
    const suffix: Option<string>
    var tokens: Template
    var size: nat
    var lastUsed: nat
    var eventFirst: nat
    var eventLast: nat
    var members: seq<string>

    ghost function Value(): Body
      reads this
    {
      Body(id, tokens, size, lastUsed, eventFirst, eventLast, suffix, members)
    }

    /** A cluster of size 1. */
    constructor (id: Id, tokens: Template, suffix: Option<string>, event: Option<nat>)
      ensures Value() == NewBody(id, Request(tokens, suffix, None, event), 0)
      ensures this.id == id && this.tokens == tokens && this.suffix == suffix
      ensures size == 1 && lastUsed == 0 && members == []
      ensures if event.Some? then eventFirst == eventLast == event.value
              else eventFirst == EVENT_UNSET && eventLast == 0
    {
      this.id := id;
      this.tokens := tokens;
      this.suffix := suffix;
      size := 1;
      lastUsed := 0;
      match event {
        case Some(ms) => eventFirst, eventLast := ms, ms;
        case None => eventFirst, eventLast := EVENT_UNSET, 0;
      }
      members := [];
    }

    constructor FromRecord(c: ClusterRecord)
      ensures Value() == BodyOf(c)
      ensures id == c.id && tokens == c.tokens && suffix == c.suffix && size == c.size && members == c.members
      ensures eventFirst == c.eventFirst && eventLast == c.eventLast && lastUsed == 0
    {
      id := c.id;
      tokens := c.tokens;
      suffix := c.suffix;
      size := c.size;
      lastUsed := 0;
      eventFirst := c.eventFirst;
      eventLast := c.eventLast;
      members := c.members;
    }

    /** Records a hit at recency `tick`. */
    method Touch(tick: nat)
      modifies this
      ensures Value() == Touched(old(Value()), tick)
      ensures size == old(size) + 1 && lastUsed == tick
      ensures unchanged(`tokens, `eventFirst, `eventLast, `members)
    {
      size := size + 1;
      lastUsed := tick;
    }

    /** Folds an event time into the event window. */
    method ObserveEvent(ms: nat)
      modifies this
      ensures Value() == Observed(old(Value()), Some(ms))
      ensures eventFirst <= ms && eventFirst <= old(eventFirst) && (eventFirst == ms || eventFirst == old(eventFirst))
      ensures eventLast >= ms && eventLast >= old(eventLast) && (eventLast == ms || eventLast == old(eventLast))
      ensures unchanged(`tokens, `size, `lastUsed, `members)
    {
      if ms < eventFirst { eventFirst := ms; }
      if ms > eventLast { eventLast := ms; }
    }

    method AddMember(m: string)
      modifies this
      ensures Value() == Labelled(old(Value()), Some(m))
      ensures if m in old(members) then members == old(members) else members == old(members) + [m]
      ensures unchanged(`tokens, `size, `lastUsed, `eventFirst, `eventLast)
    {
      if m !in members {
        members := members + [m];
      }
    }

    /** Replaces the texts that differ from `incoming`, keeping the delimiter flags; tells whether any did. */
    method GeneralizeTo(incoming: seq<Token>, wildcard: string) returns (changed: bool)
      requires |tokens| == |incoming|
      modifies this
      ensures Value() == old(Value()).(tokens := Generalize(old(tokens), incoming, wildcard))
      ensures changed <==> WouldGeneralize(old(tokens), incoming, wildcard)
      ensures Covers(tokens, incoming, wildcard)
      ensures |tokens| == |old(tokens)|
      ensures forall i | 0 <= i < |tokens| ::
                tokens[i] == if old(tokens)[i].text == incoming[i].text then old(tokens)[i]
                             else old(tokens)[i].(text := wildcard)
    {
      changed := false;
      ghost var before := tokens;
      for i := 0 to |tokens|
        invariant |tokens| == |before|
        invariant Value() == old(Value()).(tokens := tokens)
        invariant tokens[..i] == Generalize(before, incoming, wildcard)[..i]
        invariant tokens[i..] == before[i..]
        invariant changed <==>
                    exists j :: 0 <= j < i && before[j].text != wildcard && before[j].text != incoming[j].text
      {
        assert tokens[i] == tokens[i..][0] == before[i];
        if tokens[i].text != wildcard && tokens[i].text != incoming[i].text {
          tokens := tokens[i := tokens[i].(text := wildcard)];
          changed := true;
        }
      }
      GeneralizeIsMoreGeneral(before, incoming, wildcard);
      assert tokens == tokens[..|tokens|] == Generalize(before, incoming, wildcard);
    }

    /** A whole match: the hit and event time under the read lock, then, only if the template has to
        change or there is a member to record, the write section. */
    method Hit(tick: nat, incoming: seq<Token>, member: Option<string>, event: Option<nat>, wildcard: string)
      returns (changed: bool)
      requires |tokens| == |incoming|
      modifies this
      ensures Value() == Matched(old(Value()), Request(incoming, None, member, event), tick, wildcard)
      ensures changed <==> WouldGeneralize(old(tokens), incoming, wildcard)
      ensures size == old(size) + 1 && lastUsed == tick && |tokens| == |old(tokens)|
      ensures forall i | 0 <= i < |tokens| ::
                tokens[i] == if old(tokens)[i].text == incoming[i].text then old(tokens)[i]
                             else old(tokens)[i].(text := wildcard)
      ensures members == old(members) + if member.Some? && member.value !in old(members) then [member.value] else []
    {
      Touch(tick);
      match event {
        case Some(ms) => ObserveEvent(ms);
        case None =>
      }
      var needsGeneralize := WouldGeneralize(tokens, incoming, wildcard);
      changed := false;
      if needsGeneralize || member.Some? {
        if needsGeneralize {
          changed := GeneralizeTo(incoming, wildcard);
        }
        match member {
          case Some(m) => AddMember(m);
          case None =>
        }
      }
    }

    /** Prints the template. */
    method RenderTemplate() returns (s: string)
      ensures s == Render(tokens)
    {
      s := [];
      var prevTrailing: Option<char> := None;
      for i := 0 to |tokens|
        invariant s + RenderFrom(tokens[i..], prevTrailing, i == 0) == Render(tokens)
      {
        var t := tokens[i];
        ghost var before := s;
        if i > 0 {
          match prevTrailing {
            case Some(c) => s := s + [c];
            case None => s := s + [' '];
          }
        }
        if prevTrailing.None? {
          match t.leadingDelim {
            case Some(c) => s := s + [c];
            case None =>
          }
        }
        assert s == before + Joint(prevTrailing, i == 0, t.leadingDelim);
        s := s + t.text;
        PrintStep(tokens[i..], prevTrailing, i == 0, before);
        assert tokens[i..][1..] == tokens[i + 1..];
        prevTrailing := t.trailingDelim;
      }
      match prevTrailing {
        case Some(c) => s := s + [c];
        case None =>
      }
    }
  }

  /** One turn of the printing loop. */
  lemma PrintStep(ts: seq<Token>, prev: Option<char>, first: bool, before: string)
    requires ts != []
    ensures before + Joint(prev, first, ts[0].leadingDelim) + ts[0].text
            + RenderFrom(ts[1..], ts[0].trailingDelim, false)
         == before + RenderFrom(ts, prev, first)
  {
    var joint := Joint(prev, first, ts[0].leadingDelim);
    var rest := RenderFrom(ts[1..], ts[0].trailingDelim, false);
    Assoc(before + joint, ts[0].text, rest);
    Assoc(before, joint, ts[0].text + rest);
  }
}
