/** The route chain of an agent (route.ts, resolveRouteChain): the configured route first, then its profile's fallbacks
without repetition. */
module RouteChain {
  import opened Common
  import opened R = Route

  datatype Profile = Fast | Strong | Configured

  function ProfileFor(m: Model): Profile {
    match m
    case NemotronNano => Fast
    case NemotronSuper => Strong
    case NemotronSuper35 => Strong
    case _ => Configured
  }

  datatype Request = Request(configured: R.Route, byo: bool, openAiBackup: bool, pinned: bool, lightning: bool)

  function Shared(m: Model, keyRef: string): R.Route {
    R.Route.Route(Nvidia, m, None, keyRef)
  }

  function Backup(): R.Route {
    R.Route.Route(OpenAi, OpenAiBackup, None, "openai:shared:backup")
  }

  predicate Single(q: Request) {
    q.byo || q.pinned
  }

  /** Keep a route when no earlier one shares its key. */
  method Distinct(routes: seq<R.Route>) returns (kept: seq<R.Route>)
    ensures kept == Firsts(routes)
  {
    kept := [];
    var i := 0;
    while i < |routes|
      invariant 0 <= i <= |routes|
      invariant kept == Firsts(routes[..i])
    {
      assert routes[..i + 1][..i] == routes[..i];
      if forall j :: 0 <= j < i ==> KeyOf(routes[j]) != KeyOf(routes[i]) {
        kept := kept + [routes[i]];
      }
      i := i + 1;
    }
    assert routes[..i] == routes;
  }

  function Firsts(routes: seq<R.Route>): seq<R.Route> {
    if routes == [] then []
    else
      var n := |routes| - 1;
      Firsts(routes[..n])
      + if forall j :: 0 <= j < n ==> KeyOf(routes[j]) != KeyOf(routes[n]) then [routes[n]] else []
  }

  method ResolveRouteChain(q: Request) returns (profile: Profile, routes: seq<R.Route>)
    ensures profile == ProfileFor(q.configured.model)
    ensures routes == if Single(q) then [q.configured] else Firsts(Listed(q))
  {
    profile := ProfileFor(q.configured.model);
    if q.byo || q.pinned { return profile, [q.configured]; }
    var keyRef := q.configured.keyRef;
    routes := [q.configured];
    if profile == Strong {
      routes := routes + [Shared(NemotronSuper35, keyRef)] + [Shared(NemotronSuper, keyRef)];
    }
    if q.lightning && (profile == Fast || profile == Strong) {
      routes := routes + [Shared(NemotronLightning, keyRef)];
    }
    if profile == Fast {
      routes := routes + [Shared(NemotronSuper, keyRef)] + [Shared(NemotronSuper35, keyRef)];
    } else if profile == Strong {
      routes := routes + [Shared(NemotronNano, keyRef)];
    }
    if q.openAiBackup {
      routes := routes + [Backup()];
    }
    assert routes == Listed(q);
    routes := Distinct(routes);
  }

  /** The routes in order of preference, before repetitions go. */
  function Listed(q: Request): seq<R.Route> {
    var k := q.configured.keyRef;
    var p := ProfileFor(q.configured.model);
    [q.configured] + Successors(p, k) + (if q.lightning && p != Configured then [Shared(NemotronLightning, k)] else [])
    + Alternates(p, k) + (if q.openAiBackup then [Backup()] else [])
  }

  function Successors(p: Profile, k: string): seq<R.Route> {
    if p == Strong then [Shared(NemotronSuper35, k), Shared(NemotronSuper, k)] else []
  }

  function Alternates(p: Profile, k: string): seq<R.Route> {
    match p
    case Fast => [Shared(NemotronSuper, k), Shared(NemotronSuper35, k)]
    case Strong => [Shared(NemotronNano, k)]
    case Configured => []
  }

  /** The kept routes are those listed, each once, and each before every one first listed after it. */
  lemma {:induction false} FirstsExact(routes: seq<R.Route>)
    ensures forall r :: r in Firsts(routes) <==> r in routes
    ensures forall i, j :: 0 <= i < j < |Firsts(routes)| ==> KeyOf(Firsts(routes)[i]) != KeyOf(Firsts(routes)[j])
    ensures routes != [] ==> Firsts(routes) != [] && Firsts(routes)[0] == routes[0]
  {
    if routes != [] {
      var n := |routes| - 1;
      var kept := Firsts(routes[..n]);
      FirstsExact(routes[..n]);
      assert routes == routes[..n] + [routes[n]];
      forall i | 0 <= i < |kept| ensures kept[i] in routes[..n] {
        assert kept[i] in kept;
      }
    }
  }

  predicate OnKey(r: R.Route, keyRef: string) {
    r.provider == Nvidia && r.keyRef == keyRef
  }

  lemma {:induction false} ListedMembers(q: Request)
    ensures |Listed(q)| <= 6 && Listed(q)[0] == q.configured
    ensures forall r :: r in Listed(q) ==>
              r == q.configured || OnKey(r, q.configured.keyRef) || (r == Backup() && q.openAiBackup)
    ensures q.openAiBackup ==> Backup() in Listed(q)
  {
  }

  /** A chain starts with the configured route and repeats none; a pinned or own-key agent has no other; any other
      route of the shared pool spends the configured key; and the backup is there exactly when it is allowed. */
  lemma {:induction false} ChainFacts(q: Request, routes: seq<R.Route>)
    requires routes == if Single(q) then [q.configured] else Firsts(Listed(q))
    ensures routes != [] && routes[0] == q.configured && |routes| <= 6
    ensures forall i, j :: 0 <= i < j < |routes| ==> KeyOf(routes[i]) != KeyOf(routes[j])
    ensures Single(q) ==> |routes| == 1
    ensures forall r :: r in routes && r != q.configured ==> OnKey(r, q.configured.keyRef) || r == Backup()
    ensures q.configured != Backup() ==> (Backup() in routes <==> q.openAiBackup && !Single(q))
  {
    if !Single(q) {
      ListedMembers(q);
      FirstsExact(Listed(q));
      FirstsShorter(Listed(q));
    }
  }

  lemma {:induction false} FirstsShorter(routes: seq<R.Route>)
    ensures |Firsts(routes)| <= |routes|
  {
    if routes != [] { FirstsShorter(routes[..|routes| - 1]); }
  }
}
