/**
 * router.go and the two route groups main.go mounts it under. The route
 * table is a sequence of entries (method set, path template, handler), built
 * in place by `CreateRouter`; dispatch is a lookup over it that matches the
 * request path piece by piece (the pieces between '/'), binding every `:name`
 * piece of a template to the non-empty piece of the path at its place.
 */
module Router {
  import opened Wrappers
  import opened GoStrings
  import opened Http

  /** The handlers of handlers.go that a route can lead to. */
  datatype Handler = Help | Ping | IsReady | Info | TimeData | Echo | Crash | Wait | Exit
                   | StatusCode | ReadFile | UploadFile

  /** One piece of a path template: literal text, or a `:name` parameter. */
  datatype Segment = Static(text: string) | Param(name: string)

  /**
   * A path template as the pieces of its text split at '/'. Templates start
   * with '/', so the first piece is always the empty text before it.
   */
  type Template = seq<Segment>

  /** The template of "/" followed by `parts` joined with '/'. */
  function Path(parts: seq<Segment>): (t: Template)
    ensures |t| == |parts| + 1 && t[0] == Static("")
  {
    [Static("")] + parts
  }

  /**
   * gin's `joinPaths(base, rel)` for clean templates: the group's base path
   * followed by the relative path, with no doubled '/' ("/" + "/help" is
   * "/help"; "/specify/:instance" + "/" keeps its trailing '/').
   */
  function JoinPaths(base: Template, rel: Template): (j: Template)
    requires |base| >= 1 && |rel| >= 1
    ensures base[|base| - 1] != Static("") ==> j == base + rel[1..]
    ensures base[|base| - 1] == Static("") ==> j == base[..|base| - 1] + rel[1..]
  {
    (if base[|base| - 1] == Static("") then base[..|base| - 1] else base) + rel[1..]
  }

  /** The text of one piece of a template: a literal, or ":" and the parameter's name. */
  function SegmentText(s: Segment): string
  {
    match s
    case Static(text) => text
    case Param(name) => ":" + name
  }

  /** The texts of a template's pieces. */
  function Texts(t: Template): (ts: seq<string>)
    ensures |ts| == |t|
  {
    seq(|t|, i requires 0 <= i < |t| => SegmentText(t[i]))
  }

  /** The path text a template stands for: its pieces joined with '/'. */
  function Render(t: Template): string
  {
    Join(Texts(t), '/')
  }

  /**
   * What gin's `joinPaths` promises, on the path text: the group's path
   * followed by the relative path, with no doubled '/' where a group path
   * ending in '/' meets a relative path starting with one. The relative
   * path's own trailing '/' is kept.
   */
  lemma JoinPathsText(base: Template, rel: Template)
    requires |base| >= 2 && |rel| >= 2 && rel[0] == Static("")
    ensures Render(JoinPaths(base, rel)) ==
              (if base[|base| - 1] == Static("") then Render(base)[..|Render(base)| - 1] else Render(base)) + Render(rel)
  {
    var b := if base[|base| - 1] == Static("") then base[..|base| - 1] else base;
    assert JoinPaths(base, rel) == b + rel[1..];
    RenderConcat(b, rel[1..]);
    RenderRooted(rel);
    if base[|base| - 1] == Static("") {
      assert base == b + [Static("")];
      RenderTrailing(b);
    }
  }

  /** Rendering two templates one after the other puts a '/' between them. */
  lemma RenderConcat(a: Template, b: Template)
    requires |a| >= 1 && |b| >= 1
    ensures Render(a + b) == Render(a) + "/" + Render(b)
  {
    assert Texts(a + b) == Texts(a) + Texts(b);
    JoinAppend(Texts(a), Texts(b), '/');
  }

  /** A template starting at the root renders as '/' followed by the rest. */
  lemma RenderRooted(t: Template)
    requires |t| >= 2 && t[0] == Static("")
    ensures Render(t) == "/" + Render(t[1..])
  {
    assert t == [Static("")] + t[1..];
    RenderConcat([Static("")], t[1..]);
  }

  /** An empty last piece renders as a trailing '/'. */
  lemma RenderTrailing(t: Template)
    requires |t| >= 1
    ensures Render(t + [Static("")]) == Render(t) + "/"
  {
    RenderConcat(t, [Static("")]);
  }

  /** The two joins main.go makes: "/" + "/help" is "/help", and "/specify/:instance" + "/" keeps its '/'. */
  lemma JoinPathsExamples()
    ensures Render(JoinPaths(TopGroup.base, [Static(""), Static("help")])) == "/help"
    ensures Render(JoinPaths(SpecifyGroup.base, [Static(""), Static("")])) == "/specify/:instance/"
  {
    TopJoin();
    SpecifyJoin();
  }

  lemma TopJoin()
    ensures Render(JoinPaths(TopGroup.base, [Static(""), Static("help")])) == "/help"
  {
    assert JoinPaths(TopGroup.base, [Static(""), Static("help")]) == [Static(""), Static("help")];
    RenderRooted([Static(""), Static("help")]);
    RenderOne(Static("help"));
  }

  lemma SpecifyJoin()
    ensures Render(JoinPaths(SpecifyGroup.base, [Static(""), Static("")])) == "/specify/:instance/"
  {
    var sp := [Static(""), Static("specify"), Param("instance")];
    assert JoinPaths(SpecifyGroup.base, [Static(""), Static("")]) == sp + [Static("")];
    RenderTrailing(sp);
    RenderRootedPair(Static("specify"), Param("instance"));
  }

  /** "/" followed by two pieces renders as their texts, each after a '/'. */
  lemma RenderRootedPair(a: Segment, b: Segment)
    ensures Render([Static(""), a, b]) == "/" + SegmentText(a) + "/" + SegmentText(b)
  {
    var t := [Static(""), a, b];
    RenderRooted(t);
    assert t[1..] == [a] + [b];
    RenderConcat([a], [b]);
    RenderOne(a);
    RenderOne(b);
    calc {
      Render(t);
      "/" + Render([a] + [b]);
      "/" + (SegmentText(a) + "/" + SegmentText(b));
    }
  }

  /** A one-piece template renders as that piece's text. */
  lemma RenderOne(s: Segment)
    ensures Render([s]) == SegmentText(s)
  {
    assert Texts([s]) == [SegmentText(s)];
  }

  datatype Route = Route(methods: set<Method>, template: Template, handler: Handler)

  /** A `RouterGroup`: the base path its routes are registered under. */
  datatype Group = Group(base: Template)

  /** `r.Group("/")` */
  const TopGroup: Group := Group(Path([Static("")]))

  /** `r.Group("/specify/:instance")` */
  const SpecifyGroup: Group := Group(Path([Static("specify"), Param("instance")]))

  /** One registration of router.go: methods, path relative to the group, handler. */
  datatype Registration = Registration(methods: set<Method>, rel: Template, handler: Handler)

  /** The thirteen registrations of `createRouter`, in order. */
  const Registrations: seq<Registration> := [
    Registration(AnyMethods, [Static(""), Static("")], Help),
    Registration(AnyMethods, [Static(""), Static("help")], Help),
    Registration(AnyMethods, [Static(""), Static("ping")], Ping),
    Registration(AnyMethods, [Static(""), Static("ready")], IsReady),
    Registration(AnyMethods, [Static(""), Static("info")], Info),
    Registration(AnyMethods, [Static(""), Static("time")], TimeData),
    Registration(AnyMethods, [Static(""), Static("echo")], Echo),
    Registration(AnyMethods, [Static(""), Static("crash")], Crash),
    Registration(AnyMethods, [Static(""), Static("wait"), Param("ms")], Wait),
    Registration(AnyMethods, [Static(""), Static("exit")], Exit),
    Registration(AnyMethods, [Static(""), Static("status"), Param("code")], StatusCode),
    Registration({GET}, [Static(""), Static("file")], ReadFile),
    Registration({POST}, [Static(""), Static("file")], UploadFile)
  ]

  /** The routes a group contributes: every registration under the group's base path. */
  function Mount(g: Group, regs: seq<Registration>): (routes: seq<Route>)
    requires |g.base| >= 1 && forall i :: 0 <= i < |regs| ==> |regs[i].rel| >= 1
    ensures |routes| == |regs|
  {
    seq(|regs|, i requires 0 <= i < |regs| =>
      Route(regs[i].methods, JoinPaths(g.base, regs[i].rel), regs[i].handler))
  }

  /** The whole table main.go builds: the "/specify/:instance" group, then the "/" group. */
  function Table(): seq<Route>
  {
    Mount(SpecifyGroup, Registrations) + Mount(TopGroup, Registrations)
  }

  /** gin's engine: the route table the groups register into. */
  class Engine {
    var routes: seq<Route>

    constructor ()
      ensures routes == []
    {
      routes := [];
    }

    /** `g.Handle(method, rel, h)` for every method in `methods`. */
    method Handle(g: Group, methods: set<Method>, rel: Template, h: Handler)
      requires |g.base| >= 1 && |rel| >= 1
      modifies this
      ensures routes == old(routes) + [Route(methods, JoinPaths(g.base, rel), h)]
    {
      routes := routes + [Route(methods, JoinPaths(g.base, rel), h)];
    }

    /** `g.Any(rel, h)` */
    method Any(g: Group, rel: Template, h: Handler)
      requires |g.base| >= 1 && |rel| >= 1
      modifies this
      ensures routes == old(routes) + [Route(AnyMethods, JoinPaths(g.base, rel), h)]
    {
      Handle(g, AnyMethods, rel, h);
    }

    /** `createRouter(g)`: the thirteen registrations, in order. */
    method CreateRouter(g: Group)
      requires |g.base| >= 1
      modifies this
      ensures routes == old(routes) + Mount(g, Registrations)
    {
      ghost var before := routes;
      ghost var all := RegisteredRoutes(g);
      ghost var prior := routes;
      assert routes == before + all[..0];
      Any(g, [Static(""), Static("")], Help);
      Registered(before, all, 0, prior, routes, Route(AnyMethods, JoinPaths(g.base, [Static(""), Static("")]), Help));
      prior := routes;
      Any(g, [Static(""), Static("help")], Help);
      Registered(before, all, 1, prior, routes, Route(AnyMethods, JoinPaths(g.base, [Static(""), Static("help")]), Help));
      prior := routes;
      Any(g, [Static(""), Static("ping")], Ping);
      Registered(before, all, 2, prior, routes, Route(AnyMethods, JoinPaths(g.base, [Static(""), Static("ping")]), Ping));
      prior := routes;
      Any(g, [Static(""), Static("ready")], IsReady);
      Registered(before, all, 3, prior, routes, Route(AnyMethods, JoinPaths(g.base, [Static(""), Static("ready")]), IsReady));
      prior := routes;
      Any(g, [Static(""), Static("info")], Info);
      Registered(before, all, 4, prior, routes, Route(AnyMethods, JoinPaths(g.base, [Static(""), Static("info")]), Info));
      prior := routes;
      Any(g, [Static(""), Static("time")], TimeData);
      Registered(before, all, 5, prior, routes, Route(AnyMethods, JoinPaths(g.base, [Static(""), Static("time")]), TimeData));
      prior := routes;
      Any(g, [Static(""), Static("echo")], Echo);
      Registered(before, all, 6, prior, routes, Route(AnyMethods, JoinPaths(g.base, [Static(""), Static("echo")]), Echo));
      prior := routes;
      Any(g, [Static(""), Static("crash")], Crash);
      Registered(before, all, 7, prior, routes, Route(AnyMethods, JoinPaths(g.base, [Static(""), Static("crash")]), Crash));
      prior := routes;
      Any(g, [Static(""), Static("wait"), Param("ms")], Wait);
      Registered(before, all, 8, prior, routes, Route(AnyMethods, JoinPaths(g.base, [Static(""), Static("wait"), Param("ms")]), Wait));
      prior := routes;
      Any(g, [Static(""), Static("exit")], Exit);
      Registered(before, all, 9, prior, routes, Route(AnyMethods, JoinPaths(g.base, [Static(""), Static("exit")]), Exit));
      prior := routes;
      Any(g, [Static(""), Static("status"), Param("code")], StatusCode);
      Registered(before, all, 10, prior, routes, Route(AnyMethods, JoinPaths(g.base, [Static(""), Static("status"), Param("code")]), StatusCode));
      prior := routes;
      Handle(g, {GET}, [Static(""), Static("file")], ReadFile);
      Registered(before, all, 11, prior, routes, Route({GET}, JoinPaths(g.base, [Static(""), Static("file")]), ReadFile));
      prior := routes;
      Handle(g, {POST}, [Static(""), Static("file")], UploadFile);
      Registered(before, all, 12, prior, routes, Route({POST}, JoinPaths(g.base, [Static(""), Static("file")]), UploadFile));
      prior := routes;
      assert all[..|all|] == all;
      MountRegistrations(g);
    }
  }

  /** The routes `createRouter(g)` adds, written out one by one. */
  function RegisteredRoutes(g: Group): seq<Route>
    requires |g.base| >= 1
  {
    [Route(AnyMethods, JoinPaths(g.base, [Static(""), Static("")]), Help),
      Route(AnyMethods, JoinPaths(g.base, [Static(""), Static("help")]), Help),
      Route(AnyMethods, JoinPaths(g.base, [Static(""), Static("ping")]), Ping),
      Route(AnyMethods, JoinPaths(g.base, [Static(""), Static("ready")]), IsReady),
      Route(AnyMethods, JoinPaths(g.base, [Static(""), Static("info")]), Info),
      Route(AnyMethods, JoinPaths(g.base, [Static(""), Static("time")]), TimeData),
      Route(AnyMethods, JoinPaths(g.base, [Static(""), Static("echo")]), Echo),
      Route(AnyMethods, JoinPaths(g.base, [Static(""), Static("crash")]), Crash),
      Route(AnyMethods, JoinPaths(g.base, [Static(""), Static("wait"), Param("ms")]), Wait),
      Route(AnyMethods, JoinPaths(g.base, [Static(""), Static("exit")]), Exit),
      Route(AnyMethods, JoinPaths(g.base, [Static(""), Static("status"), Param("code")]), StatusCode),
      Route({GET}, JoinPaths(g.base, [Static(""), Static("file")]), ReadFile),
      Route({POST}, JoinPaths(g.base, [Static(""), Static("file")]), UploadFile)]
  }

  /** One more registered route extends the prefix registered so far. */
  lemma Registered(before: seq<Route>, all: seq<Route>, k: int, prior: seq<Route>, routes: seq<Route>, r: Route)
    requires 0 <= k < |all| && all[k] == r
    requires prior == before + all[..k] && routes == prior + [r]
    ensures routes == before + all[..k + 1]
  {
    assert all[..k + 1] == all[..k] + [all[k]];
  }

  /** Mounting the registrations under a group gives exactly those routes, in order. */
  lemma MountRegistrations(g: Group)
    requires |g.base| >= 1
    ensures Mount(g, Registrations) == RegisteredRoutes(g)
  {
  }

  /**
   * main.go's registrations on a fresh engine: `createRouter` on the
   * "/specify/:instance" group, then on the "/" group.
   */
  method Build() returns (table: seq<Route>)
    ensures table == Table()
  {
    var engine := new Engine();
    engine.CreateRouter(SpecifyGroup);
    engine.CreateRouter(TopGroup);
    table := engine.routes;
  }

  /** The parameters a template binds against the pieces of a path, if it matches. */
  function MatchSegments(t: Template, path: seq<string>): Option<seq<(string, string)>>
  {
    if |t| != |path| then None
    else if |t| == 0 then Some([])
    else
      match MatchSegments(t[1..], path[1..])
      case None => None
      case Some(rest) =>
        match t[0]
        case Static(text) => if text == path[0] then Some(rest) else None
        case Param(name) => if path[0] != "" then Some([(name, path[0])] + rest) else None
  }

  predicate Matches(r: Route, m: Method, path: seq<string>)
  {
    m in r.methods && MatchSegments(r.template, path).Some?
  }

  /** A dispatch result: the handler and the path parameters it sees. */
  datatype Match = Match(handler: Handler, params: seq<(string, string)>)

  /** The first route of `routes` that answers `m` on `path`. */
  function Lookup(routes: seq<Route>, m: Method, path: seq<string>): (o: Option<Match>)
    ensures o.None? <==> forall i :: 0 <= i < |routes| ==> !Matches(routes[i], m, path)
    ensures o.Some? ==> exists i :: 0 <= i < |routes| && Matches(routes[i], m, path)
                          && o.value == Match(routes[i].handler, MatchSegments(routes[i].template, path).value)
  {
    if |routes| == 0 then None
    else if Matches(routes[0], m, path) then
      Some(Match(routes[0].handler, MatchSegments(routes[0].template, path).value))
    else
      var o := Lookup(routes[1..], m, path);
      assert forall i :: 1 <= i < |routes| ==> routes[1..][i - 1] == routes[i];
      o
  }

  /** The handler and parameters a request reaches. */
  function Dispatch(routes: seq<Route>, m: Method, path: string): Option<Match>
  {
    Lookup(routes, m, Split(path, '/'))
  }

  /**
   * A request reaches no handler exactly when no route answers its method on
   * the pieces of its path; otherwise it reaches the handler of one that does.
   */
  lemma DispatchMatches(routes: seq<Route>, m: Method, path: string)
    ensures Dispatch(routes, m, path).None? <==> forall i :: 0 <= i < |routes| ==> !Matches(routes[i], m, Split(path, '/'))
    ensures Dispatch(routes, m, path).Some? ==>
              exists i :: 0 <= i < |routes| && Matches(routes[i], m, Split(path, '/'))
                          && Dispatch(routes, m, path).value.handler == routes[i].handler
  {
  }
}

/** Properties of the route table and of dispatch over it. */
module RouterFacts {
  import opened Wrappers
  import opened GoStrings
  import opened Http
  import opened Router

  // ------------------------------------------------------------ matching

  /** How one template piece combines with one path piece and the match of the rest. */
  function Bind(s: Segment, p: string, rest: Option<seq<(string, string)>>): Option<seq<(string, string)>>
  {
    match rest
    case None => None
    case Some(bound) =>
      match s
      case Static(text) => if text == p then Some(bound) else None
      case Param(name) => if p != "" then Some([(name, p)] + bound) else None
  }

  lemma MatchStep(s: Segment, t: Template, p: string, path: seq<string>)
    ensures MatchSegments([s] + t, [p] + path) == Bind(s, p, MatchSegments(t, path))
  {
    assert ([s] + t)[1..] == t && ([p] + path)[1..] == path;
  }

  lemma MatchTwo(s0: Segment, s1: Segment, p0: string, p1: string)
    ensures MatchSegments([s0, s1], [p0, p1]) == Bind(s0, p0, Bind(s1, p1, Some([])))
  {
    assert [s0, s1] == [s0] + [s1] && [p0, p1] == [p0] + [p1];
    assert [s1] == [s1] + [] && [p1] == [p1] + [];
    MatchStep(s0, [s1], p0, [p1]);
    MatchStep(s1, [], p1, []);
  }

  lemma MatchThree(s0: Segment, s1: Segment, s2: Segment, p0: string, p1: string, p2: string)
    ensures MatchSegments([s0, s1, s2], [p0, p1, p2]) == Bind(s0, p0, Bind(s1, p1, Bind(s2, p2, Some([]))))
  {
    assert [s0, s1, s2] == [s0] + [s1, s2] && [p0, p1, p2] == [p0] + [p1, p2];
    MatchStep(s0, [s1, s2], p0, [p1, p2]);
    MatchTwo(s1, s2, p1, p2);
  }

  /** A matched path has the template's length, its literal pieces, and non-empty parameters. */
  lemma {:induction false} MatchedPieces(t: Template, path: seq<string>, k: int)
    requires MatchSegments(t, path).Some? && 0 <= k < |t|
    ensures |path| == |t|
    ensures t[k].Static? ==> path[k] == t[k].text
    ensures t[k].Param? ==> path[k] != ""
    decreases k
  {
    if k > 0 {
      MatchedPieces(t[1..], path[1..], k - 1);
    }
  }

  /** Every parameter a match binds has a non-empty value. */
  lemma {:induction false} BoundValuesNonEmpty(t: Template, path: seq<string>)
    requires MatchSegments(t, path).Some?
    ensures forall b :: b in MatchSegments(t, path).value ==> b.1 != ""
  {
    if |t| > 0 {
      BoundValuesNonEmpty(t[1..], path[1..]);
    }
  }

  // ------------------------------------------------------------ unambiguity

  predicate StaticClash(a: Segment, b: Segment)
  {
    a.Static? && b.Static? && a.text != b.text
  }

  /** No request can match both routes. */
  predicate Disjoint(r1: Route, r2: Route)
  {
    r1.methods !! r2.methods
    || |r1.template| != |r2.template|
    || exists k :: 0 <= k < |r1.template| && k < |r2.template| && StaticClash(r1.template[k], r2.template[k])
  }

  lemma DisjointExcludes(r1: Route, r2: Route, m: Method, path: seq<string>)
    requires Disjoint(r1, r2)
    ensures !(Matches(r1, m, path) && Matches(r2, m, path))
  {
    if Matches(r1, m, path) && Matches(r2, m, path) {
      MatchedPieces(r1.template, path, 0);
      MatchedPieces(r2.template, path, 0);
      if k :| 0 <= k < |r1.template| && k < |r2.template| && StaticClash(r1.template[k], r2.template[k]) {
        MatchedPieces(r1.template, path, k);
        MatchedPieces(r2.template, path, k);
      }
    }
  }

  /** Every two routes are disjoint: which route answers never depends on their order. */
  predicate Unambiguous(routes: seq<Route>)
  {
    forall i, j :: 0 <= i < |routes| && 0 <= j < |routes| && i != j ==> Disjoint(routes[i], routes[j])
  }

  /** In an unambiguous table, dispatch finds the one route that matches. */
  lemma LookupUnique(routes: seq<Route>, m: Method, path: seq<string>, k: int)
    requires Unambiguous(routes) && 0 <= k < |routes| && Matches(routes[k], m, path)
    ensures Lookup(routes, m, path) == Some(Match(routes[k].handler, MatchSegments(routes[k].template, path).value))
  {
    var o := Lookup(routes, m, path);
    var i :| 0 <= i < |routes| && Matches(routes[i], m, path)
             && o.value == Match(routes[i].handler, MatchSegments(routes[i].template, path).value);
    if i != k {
      DisjointExcludes(routes[i], routes[k], m, path);
    }
  }

  /** Every registration is "/" followed by a literal piece and at most one more piece. */
  lemma RegistrationShapes()
    ensures forall i :: 0 <= i < |Registrations| ==>
              2 <= |Registrations[i].rel| <= 3 && Registrations[i].rel[0] == Static("")
              && Registrations[i].rel[1].Static?
  {
  }

  /** The registration a first path piece belongs to; "/file" is shared by the last two. */
  function Position(s: Segment): int
  {
    match s
    case Param(_) => -1
    case Static(t) =>
      if t == "" then 0 else if t == "help" then 1 else if t == "ping" then 2
      else if t == "ready" then 3 else if t == "info" then 4 else if t == "time" then 5
      else if t == "echo" then 6 else if t == "crash" then 7 else if t == "wait" then 8
      else if t == "exit" then 9 else if t == "status" then 10 else if t == "file" then 11
      else -1
  }

  lemma Positions()
    ensures forall i :: 0 <= i < |Registrations| ==>
              Position(Registrations[i].rel[1]) == if i == 12 then 11 else i
  {
  }

  /**
   * Within one group no two registrations can answer the same request: their
   * first path pieces differ, except for "/file", whose GET and POST have no
   * method in common. In particular no (method, path) pair is registered twice.
   */
  lemma RegistrationsDistinct()
    ensures forall a, b :: 0 <= a < |Registrations| && 0 <= b < |Registrations| && a != b ==>
              Registrations[a].rel[1] != Registrations[b].rel[1]
              || Registrations[a].methods !! Registrations[b].methods
  {
    Positions();
    assert Registrations[11].methods == {GET} && Registrations[12].methods == {POST};
  }

  /** The template a "/specify/:instance" route gets: the base, then the registration's pieces. */
  lemma SpecifyTemplate(i: int)
    requires 0 <= i < |Registrations|
    ensures Mount(SpecifyGroup, Registrations)[i].template
              == [Static(""), Static("specify"), Param("instance")] + Registrations[i].rel[1..]
  {
    RegistrationShapes();
  }

  /** A "/" route has exactly the registration's template. */
  lemma TopTemplate(i: int)
    requires 0 <= i < |Registrations|
    ensures Mount(TopGroup, Registrations)[i].template == Registrations[i].rel
  {
    RegistrationShapes();
    assert Registrations[i].rel == [Static("")] + Registrations[i].rel[1..];
  }

  /** Across both groups, no two routes can answer the same request. */
  lemma TableUnambiguous()
    ensures Unambiguous(Table())
  {
    var T := Table();
    var n := |Registrations|;
    RegistrationShapes();
    RegistrationsDistinct();
    forall i, j | 0 <= i < |T| && 0 <= j < |T| && i != j
      ensures Disjoint(T[i], T[j])
    {
      var a := if i < n then i else i - n;
      var b := if j < n then j else j - n;
      if i < n { SpecifyTemplate(a); } else { TopTemplate(a); }
      if j < n { SpecifyTemplate(b); } else { TopTemplate(b); }
      if (i < n) == (j < n) && Registrations[a].rel[1] != Registrations[b].rel[1]
         && !(T[i].methods !! T[j].methods) && |T[i].template| == |T[j].template| {
        var k := if i < n then 3 else 1;
        assert StaticClash(T[i].template[k], T[j].template[k]);
      }
    }
  }

  // ------------------------------------------------------------ the /specify/:instance group

  /** A dispatch result with the group's `instance` parameter in front. */
  function WithInstance(x: string, o: Option<Match>): Option<Match>
  {
    match o
    case None => None
    case Some(mt) => Some(Match(mt.handler, [("instance", x)] + mt.params))
  }

  /** The routes of the "/" group alone. */
  function TopRoutes(): seq<Route>
  {
    Mount(TopGroup, Registrations)
  }

  /** One step of `Lookup`: the first route, or the rest. */
  lemma LookupStep(routes: seq<Route>, m: Method, path: seq<string>)
    requires |routes| > 0
    ensures Lookup(routes, m, path) ==
              if Matches(routes[0], m, path)
              then Some(Match(routes[0].handler, MatchSegments(routes[0].template, path).value))
              else Lookup(routes[1..], m, path)
  {
  }

  lemma {:induction false} LookupConcat(a: seq<Route>, b: seq<Route>, m: Method, path: seq<string>)
    ensures Lookup(a + b, m, path) == if Lookup(a, m, path).Some? then Lookup(a, m, path) else Lookup(b, m, path)
  {
    if |a| > 0 {
      LookupConcat(a[1..], b, m, path);
      assert (a + b)[0] == a[0];
      assert (a + b)[1..] == a[1..] + b;
      LookupStep(a + b, m, path);
      LookupStep(a, m, path);
    } else {
      assert a + b == b;
    }
  }

  /**
   * Two route lists that differ only in that the first binds `instance`
   * ahead of what the second binds dispatch alike, up to that parameter.
   */
  lemma {:induction false} LookupWithInstance(a: seq<Route>, b: seq<Route>, m: Method,
                                               pa: seq<string>, pb: seq<string>, x: string)
    requires |a| == |b|
    requires forall i :: 0 <= i < |a| ==> a[i].methods == b[i].methods && a[i].handler == b[i].handler
    requires forall i :: 0 <= i < |a| ==>
               MatchSegments(a[i].template, pa) == Bind(Param("instance"), x, MatchSegments(b[i].template, pb))
    requires x != ""
    ensures Lookup(a, m, pa) == WithInstance(x, Lookup(b, m, pb))
  {
    if |a| > 0 {
      var a', b' := a[1..], b[1..];
      forall i | 0 <= i < |a'|
        ensures a'[i].methods == b'[i].methods && a'[i].handler == b'[i].handler
        ensures MatchSegments(a'[i].template, pa) == Bind(Param("instance"), x, MatchSegments(b'[i].template, pb))
      {
        assert a'[i] == a[i + 1] && b'[i] == b[i + 1];
      }
      LookupWithInstance(a', b', m, pa, pb, x);
      assert MatchSegments(a[0].template, pa) == Bind(Param("instance"), x, MatchSegments(b[0].template, pb));
      LookupStep(a, m, pa);
      LookupStep(b, m, pb);
    }
  }

  lemma SplitThreePieces(x: string, q: string)
    requires '/' !in x
    ensures Split("" + ['/'] + ("specify" + ['/'] + (x + ['/'] + q)), '/') == ["", "specify", x] + Split(q, '/')
  {
    var inner := x + ['/'] + q;
    var middle := "specify" + ['/'] + inner;
    SplitLeading(x, q, '/');
    SplitLeading("specify", inner, '/');
    SplitLeading("", middle, '/');
  }

  /** The pieces of "/specify/x/q": the group's three, then those of q. */
  lemma SplitSpecifyPath(x: string, q: string)
    requires '/' !in x
    ensures Split("/specify/" + x + "/" + q, '/') == ["", "specify", x] + Split(q, '/')
    ensures Split("/" + q, '/') == [""] + Split(q, '/')
  {
    SplitThreePieces(x, q);
    assert "/specify/" + x + "/" + q == "" + ['/'] + ("specify" + ['/'] + (x + ['/'] + q));
    SplitLeading("", q, '/');
    assert "/" + q == "" + ['/'] + q;
  }

  /** Any template behind the "/specify/:instance" prefix matches "/specify/x" + p as the bare template matches p, binding x first. */
  lemma PrefixMatch(r: Template, x: string, Q: seq<string>)
    ensures MatchSegments([Static(""), Static("specify"), Param("instance")] + r, ["", "specify", x] + Q)
              == Bind(Param("instance"), x, MatchSegments([Static("")] + r, [""] + Q))
  {
    MatchStep(Static(""), r, "", Q);
    assert [Static(""), Static("specify"), Param("instance")] + r
           == [Static("")] + ([Static("specify")] + ([Param("instance")] + r));
    assert ["", "specify", x] + Q == [""] + (["specify"] + ([x] + Q));
    MatchStep(Static(""), [Static("specify")] + ([Param("instance")] + r), "", ["specify"] + ([x] + Q));
    MatchStep(Static("specify"), [Param("instance")] + r, "specify", [x] + Q);
    MatchStep(Param("instance"), r, x, Q);
  }

  /** A "/specify/:instance" route matches "/specify/x" + p as its "/" twin matches p, binding x first. */
  lemma SpecifyMatch(i: int, x: string, Q: seq<string>)
    requires 0 <= i < |Registrations|
    ensures MatchSegments(Mount(SpecifyGroup, Registrations)[i].template, ["", "specify", x] + Q)
              == Bind(Param("instance"), x, MatchSegments(TopRoutes()[i].template, [""] + Q))
  {
    SpecifyTemplate(i);
    TopTemplate(i);
    var r := Registrations[i].rel[1..];
    assert TopRoutes()[i].template == [Static("")] + r;
    PrefixMatch(r, x, Q);
  }

  /** No "/" route is long enough to match a "/specify/x/..." path. */
  lemma TopSkipsSpecify(x: string, Q: seq<string>, m: Method)
    requires |Q| >= 1
    ensures forall i :: 0 <= i < |TopRoutes()| ==> !Matches(TopRoutes()[i], m, ["", "specify", x] + Q)
  {
    var T := TopRoutes();
    var pa := ["", "specify", x] + Q;
    RegistrationShapes();
    forall i | 0 <= i < |T| ensures !Matches(T[i], m, pa) {
      TopTemplate(i);
      if Matches(T[i], m, pa) {
        MatchedPieces(T[i].template, pa, 0);
      }
    }
  }

  /**
   * Dispatching "/specify/x" + p reaches the handler the "/" group gives p,
   * with `instance` bound to x in front of p's own parameters.
   */
  lemma SpecifyDispatch(x: string, q: string, m: Method)
    requires x != "" && '/' !in x
    ensures Dispatch(Table(), m, "/specify/" + x + "/" + q)
              == WithInstance(x, Lookup(TopRoutes(), m, Split("/" + q, '/')))
  {
    SplitSpecifyPath(x, q);
    var Q := Split(q, '/');
    var pa := ["", "specify", x] + Q;
    var S := Mount(SpecifyGroup, Registrations);
    var T := TopRoutes();
    forall i | 0 <= i < |S|
      ensures MatchSegments(S[i].template, pa) == Bind(Param("instance"), x, MatchSegments(T[i].template, [""] + Q))
    {
      SpecifyMatch(i, x, Q);
    }
    LookupWithInstance(S, T, m, pa, [""] + Q, x);
    LookupConcat(S, T, m, pa);
    if Lookup(S, m, pa).None? {
      TopSkipsSpecify(x, Q, m);
    }
  }

  /**
   * A path whose first piece is not "specify" is answered by the "/" group
   * alone.
   */
  lemma TopDispatch(q: string, m: Method)
    requires Split(q, '/')[0] != "specify"
    ensures Dispatch(Table(), m, "/" + q) == Lookup(TopRoutes(), m, Split("/" + q, '/'))
  {
    SplitSpecifyPath("", q);
    var p := Split("/" + q, '/');
    var S := Mount(SpecifyGroup, Registrations);
    forall i | 0 <= i < |S| ensures !Matches(S[i], m, p) {
      SpecifyTemplate(i);
      if Matches(S[i], m, p) {
        MatchedPieces(S[i].template, p, 1);
      }
    }
    LookupConcat(S, TopRoutes(), m, p);
  }

  /**
   * The "/specify/:instance" prefix is transparent: "/specify/x" + p reaches
   * the same handler with the same parameters as p, plus `instance` = x.
   */
  lemma SpecifyTransparent(x: string, q: string, m: Method)
    requires x != "" && '/' !in x
    requires Split(q, '/')[0] != "specify"
    ensures Dispatch(Table(), m, "/specify/" + x + "/" + q) == WithInstance(x, Dispatch(Table(), m, "/" + q))
  {
    SpecifyDispatch(x, q, m);
    TopDispatch(q, m);
  }

  /**
   * The prefix does not nest: "/specify/x/specify/y/" + q reaches no route,
   * although "/specify/y/" + q may.
   */
  lemma SpecifyNotNested(x: string, y: string, q: string, m: Method)
    requires x != "" && '/' !in x && '/' !in y
    ensures Dispatch(Table(), m, "/specify/" + x + "/specify/" + y + "/" + q) == None
  {
    var inner := "specify/" + y + "/" + q;
    NestedTopNone(y, q, m);
    SpecifyDispatch(x, inner, m);
    assert "/specify/" + x + "/specify/" + y + "/" + q == "/specify/" + x + "/" + inner;
  }

  /** No "/" route answers a path that starts with "specify". */
  lemma NestedTopNone(y: string, q: string, m: Method)
    requires '/' !in y
    ensures Lookup(TopRoutes(), m, Split("/" + ("specify/" + y + "/" + q), '/')) == None
  {
    NestedPieces(y, q);
    TopSkipsSpecify(y, Split(q, '/'), m);
  }

  /** The pieces of "/specify/y/q", written as the one-slash prefix of "specify/y/q". */
  lemma NestedPieces(y: string, q: string)
    requires '/' !in y
    ensures Split("/" + ("specify/" + y + "/" + q), '/') == ["", "specify", y] + Split(q, '/')
  {
    SplitSpecifyPath(y, q);
    assert "/" + ("specify/" + y + "/" + q) == "/specify/" + y + "/" + q;
  }

  // ------------------------------------------------------------ concrete routes

  /** Every route but the two on "/file" answers all the methods of `Any`. */
  lemma AnyMethodRoutes()
    ensures forall i :: 0 <= i < |Table()| ==>
              if Table()[i].handler == ReadFile then Table()[i].methods == {GET}
              else if Table()[i].handler == UploadFile then Table()[i].methods == {POST}
              else Table()[i].methods == AnyMethods
  {
    assert forall a :: 0 <= a < |Registrations| ==>
             if Registrations[a].handler == ReadFile then Registrations[a].methods == {GET}
             else if Registrations[a].handler == UploadFile then Registrations[a].methods == {POST}
             else Registrations[a].methods == AnyMethods;
  }

  /**
   * Dispatch to a handler other than the file ones does not depend on which
   * method of `Any` the request uses.
   */
  lemma MethodIndependent(m1: Method, m2: Method, path: string)
    requires m2 in AnyMethods
    requires Dispatch(Table(), m1, path).Some?
    requires Dispatch(Table(), m1, path).value.handler !in {ReadFile, UploadFile}
    ensures Dispatch(Table(), m2, path) == Dispatch(Table(), m1, path)
  {
    var T := Table();
    var p := Split(path, '/');
    TableUnambiguous();
    AnyMethodRoutes();
    var i :| 0 <= i < |T| && Matches(T[i], m1, p)
             && Dispatch(T, m1, path).value == Match(T[i].handler, MatchSegments(T[i].template, p).value);
    LookupUnique(T, m1, p, i);
    LookupUnique(T, m2, p, i);
  }

  /** Every parameter dispatch binds is non-empty: "/wait/" and "/status/" reach no handler. */
  lemma DispatchParamsNonEmpty(m: Method, path: string)
    requires Dispatch(Table(), m, path).Some?
    ensures forall b :: b in Dispatch(Table(), m, path).value.params ==> b.1 != ""
  {
    var T := Table();
    var p := Split(path, '/');
    var i :| 0 <= i < |T| && Matches(T[i], m, p)
             && Dispatch(T, m, path).value == Match(T[i].handler, MatchSegments(T[i].template, p).value);
    BoundValuesNonEmpty(T[i].template, p);
  }

  lemma SplitRoot(word: string)
    requires '/' !in word
    ensures Split("/" + word, '/') == ["", word]
  {
    SplitLeading("", word, '/');
    SplitWithout(word, '/');
    assert "/" + word == "" + ['/'] + word;
  }

  lemma SplitTwo(word: string, x: string)
    requires '/' !in word && '/' !in x
    ensures Split("/" + word + "/" + x, '/') == ["", word, x]
  {
    SplitLeading(word, x, '/');
    SplitWithout(x, '/');
    SplitLeading("", word + ['/'] + x, '/');
    assert "/" + word + "/" + x == "" + ['/'] + (word + ['/'] + x);
  }

  /** The route of the "/" group registered as `Registrations[a]`, within the whole table. */
  lemma TopRoute(a: int)
    requires 0 <= a < |Registrations|
    ensures Table()[|Registrations| + a] == Route(Registrations[a].methods, Registrations[a].rel, Registrations[a].handler)
  {
    TopTemplate(a);
  }

  /** A path that the "/" group's `Registrations[a]` matches is dispatched to it. */
  lemma TopLookup(a: int, m: Method, p: seq<string>)
    requires 0 <= a < |Registrations| && m in Registrations[a].methods
    requires MatchSegments(Registrations[a].rel, p).Some?
    ensures Lookup(Table(), m, p) == Some(Match(Registrations[a].handler, MatchSegments(Registrations[a].rel, p).value))
  {
    TableUnambiguous();
    TopRoute(a);
    LookupUnique(Table(), m, p, |Registrations| + a);
  }

  /** "/" and "/help" both reach `help`, for every method of `Any`. */
  lemma RootRoute(m: Method)
    requires m in AnyMethods
    ensures Dispatch(Table(), m, "/") == Some(Match(Help, []))
  {
    SplitRoot("");
    assert "/" + "" == "/";
    MatchTwo(Static(""), Static(""), "", "");
    TopLookup(0, m, ["", ""]);
  }

  lemma HelpRoute(m: Method)
    requires m in AnyMethods
    ensures Dispatch(Table(), m, "/help") == Some(Match(Help, []))
  {
    SplitRoot("help");
    var r := Registrations[1];
    assert r.rel == [Static(""), Static("help")] && r.handler == Help && m in r.methods;
    MatchTwo(Static(""), Static("help"), "", "help");
    TopLookup(1, m, ["", "help"]);
  }

  /** "/crash" reaches `crash` for every Any method. */
  lemma CrashRoute(m: Method)
    requires m in AnyMethods
    ensures Dispatch(Table(), m, "/crash") == Some(Match(Crash, []))
  {
    SplitRoot("crash");
    var r := Registrations[7];
    assert r.rel == [Static(""), Static("crash")] && r.handler == Crash && m in r.methods;
    MatchTwo(Static(""), Static("crash"), "", "crash");
    TopLookup(7, m, ["", "crash"]);
  }

  /** "/exit" reaches `exit` for every Any method. */
  lemma ExitRoute(m: Method)
    requires m in AnyMethods
    ensures Dispatch(Table(), m, "/exit") == Some(Match(Exit, []))
  {
    SplitRoot("exit");
    var r := Registrations[9];
    assert r.rel == [Static(""), Static("exit")] && r.handler == Exit && m in r.methods;
    MatchTwo(Static(""), Static("exit"), "", "exit");
    TopLookup(9, m, ["", "exit"]);
  }

  /** "/file" reaches `readFile` on GET and `uploadFile` on POST. */
  lemma FileRoutes()
    ensures Dispatch(Table(), GET, "/file") == Some(Match(ReadFile, []))
    ensures Dispatch(Table(), POST, "/file") == Some(Match(UploadFile, []))
  {
    SplitRoot("file");
    MatchTwo(Static(""), Static("file"), "", "file");
    TopLookup(11, GET, ["", "file"]);
    TopLookup(12, POST, ["", "file"]);
  }

  /** Only the two "/file" registrations have "file" as their first piece, and they answer GET and POST only. */
  lemma FileRegistrations()
    ensures forall a :: 0 <= a < |Registrations| && Registrations[a].rel[1] == Static("file") ==>
              Registrations[a].methods <= {GET, POST}
  {
  }

  lemma NotFileRoute(i: int, m: Method)
    requires 0 <= i < |Table()| && m != GET && m != POST
    ensures !Matches(Table()[i], m, ["", "file"])
  {
    var T := Table();
    var n := |Registrations|;
    if Matches(T[i], m, ["", "file"]) {
      MatchedPieces(T[i].template, ["", "file"], 0);
      RegistrationShapes();
      if i < n {
        SpecifyTemplate(i);
        assert false;
      } else {
        TopRoute(i - n);
        MatchedPieces(T[i].template, ["", "file"], 1);
        FileRegistrations();
        assert false;
      }
    }
  }

  /** On any method but GET and POST, "/file" reaches no handler (gin answers 404). */
  lemma FileOtherMethods(m: Method)
    requires m != GET && m != POST
    ensures Dispatch(Table(), m, "/file") == None
  {
    SplitRoot("file");
    forall i | 0 <= i < |Table()| ensures !Matches(Table()[i], m, ["", "file"]) {
      NotFileRoute(i, m);
    }
  }

  /**
   * "/wait/x" and "/status/x" bind exactly the one piece x, as "ms" and
   * "code", for every method of `Any`.
   */
  lemma WaitRoute(x: string, m: Method)
    requires x != "" && '/' !in x && m in AnyMethods
    ensures Dispatch(Table(), m, "/wait/" + x) == Some(Match(Wait, [("ms", x)]))
  {
    SplitTwo("wait", x);
    assert "/wait/" + x == "/" + "wait" + "/" + x;
    MatchThree(Static(""), Static("wait"), Param("ms"), "", "wait", x);
    assert [("ms", x)] + [] == [("ms", x)];
    TopLookup(8, m, ["", "wait", x]);
  }

  lemma StatusRoute(x: string, m: Method)
    requires x != "" && '/' !in x && m in AnyMethods
    ensures Dispatch(Table(), m, "/status/" + x) == Some(Match(StatusCode, [("code", x)]))
  {
    SplitTwo("status", x);
    assert "/status/" + x == "/" + "status" + "/" + x;
    MatchThree(Static(""), Static("status"), Param("code"), "", "status", x);
    assert [("code", x)] + [] == [("code", x)];
    TopLookup(10, m, ["", "status", x]);
  }
}
