/** The order in which handle dispatches an event: begin (id* finishing)+
    finished, where only the first group may have no ids. */
module HandleTrace {
  import opened EventIds

  /** The places in handle that dispatch the event. An id that a handler queued
      is Ordinary, whatever its value. */
  datatype Site = Begin | Ordinary(id: EventId) | Finishing | Finished

  /** A dispatch, and the live queue it starts from. */
  datatype Entry = Entry(site: Site, live: seq<EventId>)

  /** The manager's own ids are the enumerators of an enum of its own. */
  const MANAGER: nat := 0
  const BEGIN_HANDLING := EventId(MANAGER, 0)
  const FINISHING_HANDLING := EventId(MANAGER, 1)
  const FINISHED_HANDLING := EventId(MANAGER, 2)

  /** The id whose signal a dispatch raises. */
  function SignalOf(site: Site): EventId {
    match site
    case Begin => BEGIN_HANDLING
    case Ordinary(id) => id
    case Finishing => FINISHING_HANDLING
    case Finished => FINISHED_HANDLING
  }

  /** A dispatch from `site` has been made as `id`. */
  predicate RaisedAs(site: Site, id: EventId) {
    && (site.Begin? ==> id == EventId(0, 0))
    && (site.Finishing? ==> id == EventId(0, 1))
    && (site.Finished? ==> id == EventId(0, 2))
    && (site.Ordinary? ==> id == site.id)
  }

  predicate Adjacent(a: Site, b: Site) {
    match a
    case Begin => b.Ordinary? || b.Finishing?
    case Ordinary(_) => b.Ordinary? || b.Finishing?
    case Finishing => b.Ordinary? || b.Finished?
    case Finished => false
  }

  ghost predicate Walk(t: seq<Site>) {
    t != [] && t[0] == Begin && Steps(t)
  }

  ghost predicate Steps(t: seq<Site>) {
    forall i | 0 <= i < |t| - 1 :: Adjacent(t[i], t[i + 1])
  }

  ghost predicate Complete(t: seq<Site>) {
    Walk(t) && t[|t| - 1] == Finished
  }

  // ------------------------------------------------------------- as a grammar

  function Ids(ids: seq<EventId>): seq<Site> {
    if ids == [] then [] else [Ordinary(ids[0])] + Ids(ids[1..])
  }

  /** (id* finishing)* */
  function Spell(groups: seq<seq<EventId>>): seq<Site> {
    if groups == [] then [] else Ids(groups[0]) + [Finishing] + Spell(groups[1..])
  }

  ghost predicate Sentence(t: seq<Site>, groups: seq<seq<EventId>>) {
    && groups != [] && (forall k | 1 <= k < |groups| :: groups[k] != [])
    && t == [Begin] + Spell(groups) + [Finished]
  }

  lemma StepsTail(t: seq<Site>)
    requires Steps(t) && t != []
    ensures Steps(t[1..])
  {
    forall i | 0 <= i < |t[1..]| - 1 ensures Adjacent(t[1..][i], t[1..][i + 1]) {
      assert Adjacent(t[i + 1], t[i + 2]);
    }
  }

  lemma FinishedIsLast(t: seq<Site>, i: nat)
    requires Steps(t) && i < |t| - 1
    ensures t[i] != Finished
  {
    assert Adjacent(t[i], t[i + 1]);
  }

  lemma StepsCons(s: Site, t: seq<Site>)
    requires Steps(t) && (t != [] ==> Adjacent(s, t[0]))
    ensures Steps([s] + t)
  {}

  lemma SpellFinishing(groups: seq<seq<EventId>>)
    ensures Spell([[]] + groups) == [Finishing] + Spell(groups)
  {
    assert ([[]] + groups)[1..] == groups;
  }

  lemma SpellOrdinary(id: EventId, groups: seq<seq<EventId>>)
    requires groups != []
    ensures Spell([[id] + groups[0]] + groups[1..]) == [Ordinary(id)] + Spell(groups)
  {
    assert ([[id] + groups[0]] + groups[1..])[1..] == groups[1..];
    assert ([id] + groups[0])[1..] == groups[0];
  }

  /** What follows a begin, an id or a finishing spells the rest of the groups:
      first the ids left of the current group. */
  lemma {:induction false} Parse(t: seq<Site>) returns (groups: seq<seq<EventId>>)
    requires t != [] && Steps(t) && t[|t| - 1] == Finished && (t[0].Ordinary? || t[0].Finishing?)
    ensures groups != [] && (forall k | 1 <= k < |groups| :: groups[k] != [])
    ensures t == Spell(groups) + [Finished]
    ensures t[0].Ordinary? ==> groups[0] != []
    decreases |t|
  {
    var tail := t[1..];
    assert t == [t[0]] + tail;
    assert Adjacent(t[0], t[1]);
    if t[1] == Finished {
      if |t| > 2 { FinishedIsLast(t, 1); }
      groups := [[]];
      SpellFinishing([]);
    } else {
      StepsTail(t);
      var rest := Parse(tail);
      if t[0] == Finishing {
        groups := [[]] + rest;
        SpellFinishing(rest);
      } else {
        groups := [[t[0].id] + rest[0]] + rest[1..];
        SpellOrdinary(t[0].id, rest);
      }
    }
  }

  lemma {:induction false} SpellSteps(ids: seq<EventId>, rest: seq<Site>)
    requires Steps(rest) && rest != [] && rest[0] == Finishing
    ensures Steps(Ids(ids) + rest) && (Ids(ids) + rest)[0] == if ids == [] then Finishing else Ordinary(ids[0])
  {
    if ids == [] {
      assert Ids(ids) + rest == rest;
    } else {
      SpellSteps(ids[1..], rest);
      StepsCons(Ordinary(ids[0]), Ids(ids[1..]) + rest);
      assert Ids(ids) + rest == [Ordinary(ids[0])] + (Ids(ids[1..]) + rest);
    }
  }

  lemma {:induction false} SentenceSteps(groups: seq<seq<EventId>>)
    requires groups != [] && forall k | 1 <= k < |groups| :: groups[k] != []
    ensures var t := Spell(groups) + [Finished];
      Steps(t) && t[0] == if groups[0] == [] then Finishing else Ordinary(groups[0][0])
    decreases |groups|
  {
    var rest := Spell(groups[1..]) + [Finished];
    assert Steps(rest) && Adjacent(Finishing, rest[0]) by {
      if |groups| > 1 {
        assert groups[1] != [];
        SentenceSteps(groups[1..]);
      } else {
        assert rest == [Finished];
      }
    }
    StepsCons(Finishing, rest);
    SpellSteps(groups[0], [Finishing] + rest);
    assert Spell(groups) + [Finished] == Ids(groups[0]) + ([Finishing] + rest);
  }

  /** The complete walks are exactly the sentences of the grammar. */
  lemma CompleteIsSentence(t: seq<Site>)
    ensures Complete(t) <==> exists groups :: Sentence(t, groups)
  {
    if Complete(t) {
      assert |t| > 1 && Adjacent(t[0], t[1]);
      StepsTail(t);
      var groups := Parse(t[1..]);
      assert t == [Begin] + t[1..];
      assert Sentence(t, groups);
    }
    if groups :| Sentence(t, groups) {
      SentenceSteps(groups);
      StepsCons(Begin, Spell(groups) + [Finished]);
      assert t == [Begin] + (Spell(groups) + [Finished]);
    }
  }
}
