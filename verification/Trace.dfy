/** Putting runs together, event by event. */
module Trace {
  import opened Objects
  import opened Cluster

  /** `es` leads from `s` to `s'`; all its events keep to the hypotheses if `strict`. */
  ghost predicate Leads(s: State, es: seq<Event>, s': State, strict: bool) {
    Runs(s, es) && After(s, es) == s' && (strict ==> DisciplinedRun(s, es))
  }

  lemma Nothing(s: State)
    ensures Leads(s, [], s, true)
  {
  }

  /** One more event in front... */
  lemma LeadsStep(s: State, e: Event, es: seq<Event>, s': State, strict: bool)
    requires Enabled(s, e) && (strict ==> Disciplined(s, e)) && Leads(Apply(s, e), es, s', strict)
    ensures Leads(s, [e] + es, s', strict)
  {
    assert ([e] + es)[1..] == es;
  }

  /** ...or at the end. */
  lemma {:induction false} Then(s0: State, es: seq<Event>, s: State, e: Event, strict: bool)
    requires Leads(s0, es, s, strict) && Enabled(s, e) && (strict ==> Disciplined(s, e))
    ensures Leads(s0, es + [e], Apply(s, e), strict)
    decreases |es|
  {
    if es == [] {
      assert es + [e] == [e] && [e][1..] == [];
    } else {
      assert (es + [e])[1..] == es[1..] + [e];
      Then(Apply(s0, es[0]), es[1..], s, e, strict);
    }
  }

  lemma {:induction false} Join(s: State, a: seq<Event>, mid: State, b: seq<Event>, s': State, strict: bool)
    requires Leads(s, a, mid, strict) && Leads(mid, b, s', strict)
    ensures Leads(s, a + b, s', strict)
    decreases |a|
  {
    if a == [] {
      assert a + b == b;
    } else {
      assert (a + b)[1..] == a[1..] + b;
      Join(Apply(s, a[0]), a[1..], mid, b, s', strict);
    }
  }

  lemma OneLeads(s: State, e: Event, s': State, strict: bool)
    requires Enabled(s, e) && Apply(s, e) == s' && (strict ==> Disciplined(s, e))
    ensures Leads(s, [e], s', strict)
  {
    LeadsStep(s, e, [], s', strict);
    assert [e] + [] == [e];
  }

  lemma TwoLead(s: State, e1: Event, s1: State, e2: Event, s2: State, strict: bool)
    requires Enabled(s, e1) && Apply(s, e1) == s1 && (strict ==> Disciplined(s, e1))
    requires Enabled(s1, e2) && Apply(s1, e2) == s2 && (strict ==> Disciplined(s1, e2))
    ensures Leads(s, [e1, e2], s2, strict)
  {
    OneLeads(s1, e2, s2, strict);
    LeadsStep(s, e1, [e2], s2, strict);
    assert [e1] + [e2] == [e1, e2];
  }

  lemma NoMovesJoin(a: seq<Event>, b: seq<Event>)
    requires NoMoves(a) && NoMoves(b)
    ensures NoMoves(a + b)
  {
  }

  // ---------------------------------------------------------------- a record made anew

  function RewrittenIn(s: State, v: VolumeName, req: Request, pick: Candidate): State
    requires v in s.volumes
  {
    s.(clock := s.clock + 1, calls := s.calls[v := Recorded(req, pick)],
       volumes := s.volumes[v := Reuse(s.volumes[v], NewRecord(req, pick)).(version := s.clock + 1)])
  }

  /** CreateVolume rewrites a standing record for the drive it has settled on. */
  lemma RewritingLeads(s: State, v: VolumeName, req: Request, pick: Candidate)
    requires v in s.calls && s.calls[v] == Chosen(req, pick) && v in s.volumes && !s.volumes[v].deleting
    ensures Leads(s, [OnCreate(v, ReadRecord), OnCreate(v, RewriteRecord)], RewrittenIn(s, v, req, pick), true)
  {
    var read := s.(calls := s.calls[v := Reusing(req, pick, s.volumes[v])]);
    TwoLead(s, OnCreate(v, ReadRecord), read, OnCreate(v, RewriteRecord), RewrittenIn(s, v, req, pick), true);
  }
}
