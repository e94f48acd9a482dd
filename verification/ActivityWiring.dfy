/** Registration of the background activity sources that a quiescence read asks. */
module ActivityWiring {
  import opened Basics
  import opened PolicyText
  import opened SafetyActivity

  /** A source offered for registration: a name as given, and the instance, if it is not nil. */
  datatype Offer = Offer(name: string, source: Option<nat>)

  // --- What registering does ---

  ghost function Holder(sources: map<string, nat>, id: nat): (name: string)
    requires id in sources.Values
    ensures name in sources && sources[name] == id
  {
    var name :| name in sources && sources[name] == id;
    name
  }

  ghost function Register(w: Wiring, o: Offer): Wiring {
    var name := TrimSpace(o.name);
    if name == "" then w.(error := "activity source has an empty name")
    else if o.source.None? then w.(error := "activity source " + name + " is nil")
    else if name in w.sources then w.(error := "duplicate activity source " + name)
    else if o.source.value in w.sources.Values
    then w.(error := "activity source " + name + " duplicates instance " + Holder(w.sources, o.source.value))
    else w.(sources := w.sources[name := o.source.value])
  }

  ghost function RegisterAll(w: Wiring, offers: seq<Offer>): Wiring
    decreases |offers|
  {
    if offers == [] then w else RegisterAll(Register(w, offers[0]), offers[1..])
  }

  /** Every registered name is trimmed and not empty, and no instance has two names. */
  ghost predicate Wired(w: Wiring) {
    && (forall n <- w.sources :: n != "")
    && (forall n, m | n in w.sources && m in w.sources && n != m :: w.sources[n] != w.sources[m])
  }

  ghost predicate Acceptable(sources: map<string, nat>, o: Offer) {
    TrimSpace(o.name) != "" && o.source.Some? && TrimSpace(o.name) !in sources && o.source.value !in sources.Values
  }

  /** Nothing about the offers clashes: with the sources already there or with one another. */
  ghost predicate NoClash(sources: map<string, nat>, offers: seq<Offer>) {
    && (forall i | 0 <= i < |offers| :: Acceptable(sources, offers[i]))
    && (forall i, j | 0 <= i < j < |offers| :: Apart(offers[i], offers[j]))
  }

  lemma RegisterKeepsWired(w: Wiring, o: Offer)
    requires Wired(w)
    ensures Wired(Register(w, o))
    ensures Register(w, o).error == w.error <==> Acceptable(w.sources, o) || Register(w, o) == w
    ensures Acceptable(w.sources, o) ==> Register(w, o) == w.(sources := w.sources[TrimSpace(o.name) := o.source.value])
    ensures !Acceptable(w.sources, o) ==> Register(w, o).error != "" && Register(w, o).sources == w.sources
  {
    if o.source.Some? && TrimSpace(o.name) !in w.sources && o.source.value !in w.sources.Values {
      forall n | n in w.sources
        ensures w.sources[n] != o.source.value
      {
        assert w.sources[n] in w.sources.Values;
      }
    }
  }

  /** An error once noted is not lost by registering more. */
  lemma {:induction false} ErrorSticks(w: Wiring, offers: seq<Offer>)
    requires Wired(w) && w.error != ""
    ensures RegisterAll(w, offers).error != ""
    decreases |offers|
  {
    if offers != [] {
      RegisterKeepsWired(w, offers[0]);
      ErrorSticks(Register(w, offers[0]), offers[1..]);
    }
  }

  /** Registration reports no error exactly when no two offers clash. */
  lemma {:induction false} RegisterAllExact(w: Wiring, offers: seq<Offer>)
    requires Wired(w) && w.error == ""
    ensures Wired(RegisterAll(w, offers)) && (RegisterAll(w, offers).error == "" <==> NoClash(w.sources, offers))
    decreases |offers|
  {
    if offers != [] {
      var w' := Register(w, offers[0]);
      RegisterKeepsWired(w, offers[0]);
      if Acceptable(w.sources, offers[0]) {
        RegisterAllExact(w', offers[1..]);
        ClashesFromFirst(w.sources, offers);
      } else {
        KeepsOld(w', offers[1..]);
        ErrorSticks(w', offers[1..]);
      }
    }
  }

  /** Registered without an error, every offer is bound under its trimmed name, and nothing else is. */
  lemma {:induction false} RegisterAllBinds(w: Wiring, offers: seq<Offer>)
    requires Wired(w) && w.error == "" && NoClash(w.sources, offers)
    ensures var r := RegisterAll(w, offers);
      && (forall i | 0 <= i < |offers| ::
            TrimSpace(offers[i].name) in r.sources && offers[i].source == Some(r.sources[TrimSpace(offers[i].name)]))
      && (forall n | n in r.sources && n !in w.sources :: exists i :: 0 <= i < |offers| && n == TrimSpace(offers[i].name))
    decreases |offers|
  {
    if offers != [] {
      var o, rest := offers[0], offers[1..];
      var w' := Register(w, o);
      RegisterKeepsWired(w, o);
      ClashesFromFirst(w.sources, offers);
      RegisterAllBinds(w', rest);
      KeepsOld(w', rest);
      var r := RegisterAll(w, offers);
      forall i | 0 <= i < |offers|
        ensures TrimSpace(offers[i].name) in r.sources && offers[i].source == Some(r.sources[TrimSpace(offers[i].name)])
      {
        assert i > 0 ==> offers[i] == rest[i - 1];
      }
      forall n | n in r.sources && n !in w.sources
        ensures exists i :: 0 <= i < |offers| && n == TrimSpace(offers[i].name)
      {
        if n in w'.sources {
          assert n == TrimSpace(offers[0].name);
        } else {
          var i :| 0 <= i < |rest| && n == TrimSpace(rest[i].name);
          assert offers[i + 1] == rest[i];
        }
      }
    }
  }

  lemma ClashesFromFirst(sources: map<string, nat>, offers: seq<Offer>)
    requires offers != [] && Acceptable(sources, offers[0])
    ensures NoClash(sources, offers) <==> NoClash(sources[TrimSpace(offers[0].name) := offers[0].source.value], offers[1..])
  {
    var first, rest := offers[0], offers[1..];
    var grown := sources[TrimSpace(first.name) := first.source.value];
    forall o: Offer
      ensures Acceptable(grown, o) <==> Acceptable(sources, o) && Apart(first, o)
    {
      AcceptableGrown(sources, first, o);
    }
    assert forall i | 0 <= i < |rest| :: rest[i] == offers[i + 1];
    if NoClash(sources, offers) {
      forall i | 0 <= i < |rest|
        ensures Acceptable(grown, rest[i])
      {
        assert Acceptable(sources, offers[i + 1]) && Apart(offers[0], offers[i + 1]);
      }
    }
    if NoClash(grown, rest) {
      forall i | 0 <= i < |offers|
        ensures Acceptable(sources, offers[i]) && (i > 0 ==> Apart(first, offers[i]))
      {
        assert i > 0 ==> Acceptable(grown, rest[i - 1]);
      }
      forall i, j | 0 <= i < j < |offers|
        ensures Apart(offers[i], offers[j])
      {
        assert i > 0 ==> Apart(rest[i - 1], rest[j - 1]);
      }
    }
  }

  ghost predicate Apart(a: Offer, b: Offer) {
    TrimSpace(a.name) != TrimSpace(b.name) && a.source != b.source
  }

  lemma AcceptableGrown(sources: map<string, nat>, first: Offer, o: Offer)
    requires Acceptable(sources, first)
    ensures Acceptable(sources[TrimSpace(first.name) := first.source.value], o) <==> Acceptable(sources, o) && Apart(first, o)
  {
    var name, id := TrimSpace(first.name), first.source.value;
    var grown := sources[name := id];
    assert grown[name] in grown.Values;
    if o.source.Some? {
      var v := o.source.value;
      if v in sources.Values {
        var n :| n in sources && sources[n] == v;
        assert grown[n] == v && grown[n] in grown.Values;
      }
      if v in grown.Values && v != id {
        var n :| n in grown && grown[n] == v;
        assert sources[n] in sources.Values;
      }
    }
  }

  lemma {:induction false} KeepsOld(w: Wiring, offers: seq<Offer>)
    requires Wired(w)
    ensures Wired(RegisterAll(w, offers))
    ensures forall n <- w.sources :: n in RegisterAll(w, offers).sources && RegisterAll(w, offers).sources[n] == w.sources[n]
    decreases |offers|
  {
    if offers != [] {
      RegisterKeepsWired(w, offers[0]);
      KeepsOld(Register(w, offers[0]), offers[1..]);
    }
  }

  /** Wiring that passes as complete binds the six required names to six different instances. */
  lemma CompleteMeansAllSix(w: Wiring, m: nat, n: nat)
    requires Wired(w) && Missing(w.sources, REQUIRED_SOURCES) == [] && m < n < |REQUIRED_SOURCES|
    ensures REQUIRED_SOURCES[m] in w.sources && REQUIRED_SOURCES[n] in w.sources
    ensures w.sources[REQUIRED_SOURCES[m]] != w.sources[REQUIRED_SOURCES[n]]
  {
    NothingMissing(w.sources, REQUIRED_SOURCES);
    assert REQUIRED_SOURCES[m] in REQUIRED_SOURCES && REQUIRED_SOURCES[n] in REQUIRED_SOURCES;
    assert REQUIRED_SOURCES[m] != REQUIRED_SOURCES[n];
  }

  // --- The registry ---

  class SourceRegistry {
    var sources: map<string, nat>
    var ready: bool
    var required: bool
    var error: string
    var generation: nat

    ghost function Value(): Wiring
      reads this
    {
      Wiring(ready, required, error, generation, sources)
    }

    constructor ()
      ensures Value() == Wiring(false, false, "", 0, map[]) && Wired(Value())
    {
      sources, ready, required, error, generation := map[], false, false, "", 0;
    }

    method RegisterActivitySourceLocked(given: string, source: Option<nat>)
      requires Wired(Value())
      modifies `sources, `error
      ensures Value() == Register(old(Value()), Offer(given, source)) && Wired(Value())
    {
      RegisterKeepsWired(Value(), Offer(given, source));
      var name := TrimSpace(given);
      if name == "" {
        error := "activity source has an empty name";
      } else if source.None? {
        error := "activity source " + name + " is nil";
      } else if name in sources {
        error := "duplicate activity source " + name;
      } else {
        var left := sources.Keys;
        while left != {}
          invariant left <= sources.Keys && Value() == old(Value())
          invariant forall n <- sources.Keys - left :: sources[n] != source.value
          decreases |left|
        {
          var existing :| existing in left;
          left := left - {existing};
          if sources[existing] == source.value {
            error := "activity source " + name + " duplicates instance " + existing;
            assert sources[existing] in sources.Values;
            assert Holder(sources, source.value) == existing;
            return;
          }
        }
        sources := sources[name := source.value];
      }
    }

    /** A whole new set of sources replaces the old one and starts with a clean error. */
    method WithActivitySources(offers: seq<Offer>)
      modifies `sources, `error, `generation
      ensures Value() == RegisterAll(old(Value()).(sources := map[], error := ""), offers).(generation := old(generation) + 1)
      ensures Wired(Value()) && (error == "" <==> NoClash(map[], offers))
    {
      sources, error := map[], "";
      ghost var start := Value();
      RegisterAllExact(start, offers);
      assert offers[0..] == offers;
      for i := 0 to |offers|
        invariant Wired(Value()) && RegisterAll(Value(), offers[i..]) == RegisterAll(start, offers)
        invariant generation == old(generation) && ready == old(ready) && required == old(required)
      {
        assert offers[i..][0] == offers[i] && offers[i..][1..] == offers[i + 1..];
        RegisterActivitySourceLocked(offers[i].name, offers[i].source);
      }
      RegisterAllGeneration(start, offers);
      generation := generation + 1;
    }

    method AddActivitySource(name: string, source: Option<nat>)
      requires Wired(Value())
      modifies `sources, `error, `generation
      ensures Value() == Register(old(Value()), Offer(name, source)).(generation := old(generation) + 1) && Wired(Value())
    {
      RegisterActivitySourceLocked(name, source);
      generation := generation + 1;
    }

    method BeginActivitySourceWiring()
      modifies `required, `ready, `generation
      ensures Value() == old(Value()).(required := true, ready := false, generation := old(generation) + 1)
    {
      required, ready := true, false;
      generation := generation + 1;
    }

    /** Ready is declared only over six different registered instances and no registration error. */
    method MarkActivitySourcesReady()
      requires Wired(Value())
      modifies `ready, `generation
      ensures Value() == old(Value()).(ready := ready, generation := old(generation) + 1)
      ensures ready <==> error == "" && forall n <- REQUIRED_SOURCES :: n in sources
    {
      var missing := MissingRequired();
      ready := error == "" && |missing| == 0;
      NothingMissing(sources, REQUIRED_SOURCES);
      generation := generation + 1;
    }

    method MissingRequired() returns (missing: seq<string>)
      ensures missing == Missing(sources, REQUIRED_SOURCES)
    {
      missing := MissingFrom(sources, REQUIRED_SOURCES);
    }
  }

  method MissingFrom(sources: map<string, nat>, names: seq<string>) returns (missing: seq<string>)
    ensures missing == Missing(sources, names)
  {
    missing := [];
    assert names[0..] == names;
    for i := 0 to |names|
      invariant missing + Missing(sources, names[i..]) == Missing(sources, names)
    {
      assert names[i..][0] == names[i] && names[i..][1..] == names[i + 1..];
      if names[i] !in sources {
        missing := missing + [names[i]];
      }
    }
  }

  lemma {:induction false} RegisterAllGeneration(w: Wiring, offers: seq<Offer>)
    ensures var r := RegisterAll(w, offers); r.generation == w.generation && r.ready == w.ready && r.required == w.required
    decreases |offers|
  {
    if offers != [] {
      RegisterAllGeneration(Register(w, offers[0]), offers[1..]);
    }
  }
}
