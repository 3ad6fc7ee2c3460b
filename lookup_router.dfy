/**
 * The API's URL router, `MultiLookupRouter`: viewsets with several lookup
 * fields get one URL pattern per prefix of their lookup fields, and
 * decorated viewset methods may add an extra lookup segment. Routes are
 * records whose URL and name are `str.format` templates.
 */
module LookupRouter {
  import opened Wrappers
  import opened Text

  // ---------------------------------------------------------------------
  // str.format with keyword arguments

  datatype UrlError =
    | MissingKey(name: string)  // `KeyError`: the template names an argument that is not given
    | MalformedTemplate         // `ValueError`: an unmatched `{` or `}`
    | NotATemplate              // `AttributeError`: a route whose url is a list reached `.format`

  predicate BraceFree(s: string) {
    forall i :: 0 <= i < |s| ==> s[i] != '{' && s[i] != '}'
  }

  /** The first `}` at or after `from`. */
  function CloseBrace(s: string, from: nat): (r: Option<nat>)
    requires from <= |s|
    ensures r.Some? ==> from <= r.value < |s| && s[r.value] == '}' && forall j :: from <= j < r.value ==> s[j] != '}'
    ensures r.None? ==> forall j :: from <= j < |s| ==> s[j] != '}'
    decreases |s| - from
  {
    if from == |s| then None
    else if s[from] == '}' then Some(from)
    else CloseBrace(s, from + 1)
  }

  /**
   * `template.format(**args)` for templates whose fields are plain names:
   * `{name}` is replaced by the argument's text, `{{` and `}}` stand for
   * single braces, and the substituted text is not scanned again.
   */
  function Format(t: string, args: map<string, string>): (r: Result<string, UrlError>)
    ensures r.Err? && r.error.MissingKey? ==> r.error.name !in args
    decreases |t|
  {
    if t == [] then Ok("")
    else if |t| >= 2 && t[0] == '{' && t[1] == '{' then
      var rest :- Format(t[2..], args);
      Ok("{" + rest)
    else if |t| >= 2 && t[0] == '}' && t[1] == '}' then
      var rest :- Format(t[2..], args);
      Ok("}" + rest)
    else if t[0] == '{' then
      match CloseBrace(t, 1)
      case None => Err(MalformedTemplate)
      case Some(k) =>
        var name := t[1..k];
        if name !in args then Err(MissingKey(name))
        else
          var rest :- Format(t[k + 1..], args);
          Ok(args[name] + rest)
    else if t[0] == '}' then Err(MalformedTemplate)
    else
      var rest :- Format(t[1..], args);
      Ok([t[0]] + rest)
  }

  function Prefixed(p: string, r: Result<string, UrlError>): Result<string, UrlError> {
    if r.Ok? then Ok(p + r.value) else r
  }

  /** Text without braces is copied as it is. */
  lemma {:induction false} FormatLiteral(a: string, b: string, args: map<string, string>)
    requires BraceFree(a)
    ensures Format(a + b, args) == Prefixed(a, Format(b, args))
  {
    if a == [] {
      assert a + b == b;
      var r := Format(b, args);
      if r.Ok? { assert a + r.value == r.value; }
    } else {
      var t := a + b;
      assert t[0] == a[0] && t[1..] == a[1..] + b;
      assert t[0] != '{' && t[0] != '}';
      assert Format(t, args) == Prefixed([t[0]], Format(t[1..], args));
      FormatLiteral(a[1..], b, args);
      var r := Format(b, args);
      if r.Ok? {
        assert [a[0]] + (a[1..] + r.value) == a + r.value;
      }
    }
  }

  /** The template field `{name}`. */
  function Fld(name: string): string { "{" + name + "}" }

  /** A field `{name}` is replaced by its argument. */
  lemma FormatField(name: string, b: string, args: map<string, string>)
    requires BraceFree(name) && name in args
    ensures Format(Fld(name) + b, args) == Prefixed(args[name], Format(b, args))
  {
    var t := Fld(name) + b;
    var k := |name| + 1;
    assert t[0] == '{' && t[k] == '}';
    assert forall j :: 1 <= j < k ==> t[j] == name[j - 1];
    assert |t| >= 2 ==> t[1] != '{';
    assert CloseBrace(t, 1) == Some(k);
    assert t[1..k] == name;
    assert t[k + 1..] == b;
  }

  // ---------------------------------------------------------------------
  // Regex pieces

  const SegmentClass := "[^/]+"
  const FinalSegmentClass := "[^/.]+"

  /** The named group `(?P<field>class)`. */
  function NamedGroup(field: string, charClass: string): string {
    "(?P<" + field + ">" + charClass + ")"
  }

  /** The pieces are what `'(?P<{lookup_field}>CLASS)'.format(lookup_field=field)` gives. */
  lemma NamedGroupIsFormatted(field: string, charClass: string)
    requires BraceFree(charClass)
    ensures Format("(?P<" + (Fld("lookup_field") + (">" + charClass + ")")), map["lookup_field" := field]) == Ok(NamedGroup(field, charClass))
  {
    var args := map["lookup_field" := field];
    var tail := ">" + charClass + ")";
    assert Format(tail, args) == Ok(tail) by {
      assert BraceFree(tail);
      assert tail + "" == tail;
      FormatLiteralThen(tail, "", args, "");
    }
    assert Format(Fld("lookup_field") + tail, args) == Ok(field + tail) by {
      FormatFieldThen("lookup_field", tail, args, tail);
    }
    assert Format("(?P<" + (Fld("lookup_field") + tail), args) == Ok("(?P<" + (field + tail)) by {
      FormatLiteralThen("(?P<", Fld("lookup_field") + tail, args, field + tail);
    }
    assert "(?P<" + (field + tail) == NamedGroup(field, charClass);
  }

  /** Piece `j` of group `i`: the field that ends the group, and every repetition of its name, excludes `.`. */
  function LookupPiece(fields: seq<string>, i: nat, j: nat): string
    requires i < |fields| && j < |fields|
  {
    NamedGroup(fields[j], if fields[j] == fields[i] then FinalSegmentClass else SegmentClass)
  }

  /** The first `m` pieces of group `i`. */
  function Pieces(fields: seq<string>, i: nat, m: nat): seq<string>
    requires i < |fields| && m <= |fields|
  {
    if m == 0 then [] else Pieces(fields, i, m - 1) + [LookupPiece(fields, i, m - 1)]
  }

  /** The groups `get_lookup_regexes` builds for `i` in `1..n-1`. */
  function Groups(fields: seq<string>, n: nat): seq<seq<string>>
    requires n <= |fields|
  {
    if n <= 1 then [] else Groups(fields, n - 1) + [Pieces(fields, n - 1, n)]
  }

  /** `get_lookup_regexes` on the viewset's `lookup_fields` (an absent attribute behaves as an empty list). */
  function LookupRegexes(fields: seq<string>): seq<seq<string>> {
    Groups(fields, |fields|)
  }

  lemma {:induction false} PiecesShape(fields: seq<string>, i: nat, m: nat)
    requires i < |fields| && m <= |fields|
    ensures |Pieces(fields, i, m)| == m
    ensures forall j :: 0 <= j < m ==> Pieces(fields, i, m)[j] == LookupPiece(fields, i, j)
  {
    if m > 0 { PiecesShape(fields, i, m - 1); }
  }

  /**
   * For n lookup fields there are n-1 groups (none when n <= 1); group `g`
   * (for lookup field `g + 1`) holds one piece for each of the first g+2
   * fields, in order.
   */
  lemma {:induction false} LookupRegexesShape(fields: seq<string>, n: nat)
    requires n <= |fields|
    ensures |Groups(fields, n)| == if n <= 1 then 0 else n - 1
    ensures forall g :: 0 <= g < |Groups(fields, n)| ==> |Groups(fields, n)[g]| == g + 2
    ensures forall g, j :: 0 <= g < |Groups(fields, n)| && 0 <= j <= g + 1 ==> Groups(fields, n)[g][j] == LookupPiece(fields, g + 1, j)
  {
    if n > 1 {
      LookupRegexesShape(fields, n - 1);
      PiecesShape(fields, n - 1, n);
    }
  }

  /** With distinct field names, only the last piece of each group excludes `.`. */
  lemma OnlyLastPieceExcludesDot(fields: seq<string>, i: nat, j: nat)
    requires j <= i < |fields|
    requires forall a, b :: 0 <= a < b < |fields| ==> fields[a] != fields[b]
    ensures LookupPiece(fields, i, j) == NamedGroup(fields[j], if j == i then FinalSegmentClass else SegmentClass)
  {
  }

  /** `get_lookup_regexes`: nested loops appending each piece and each group. */
  method GetLookupRegexes(fields: seq<string>) returns (ret: seq<seq<string>>)
    ensures ret == LookupRegexes(fields)
  {
    ret := [];
    if |fields| > 0 {
      for i := 1 to |fields|
        invariant ret == Groups(fields, i)
      {
        var tmp: seq<string> := [];
        for j := 0 to i + 1
          invariant tmp == Pieces(fields, i, j)
        {
          var charClass := if fields[j] == fields[i] then FinalSegmentClass else SegmentClass;
          tmp := tmp + [NamedGroup(fields[j], charClass)];
        }
        ret := ret + [tmp];
      }
    }
  }

  /** The `lookups` values `get_urls` formats: each group joined by `/`, or one empty string when there is none. */
  function LookupList(fields: seq<string>): (r: seq<string>)
    ensures |r| == if |fields| <= 1 then 1 else |fields| - 1
  {
    var groups := LookupRegexes(fields);
    LookupRegexesShape(fields, |fields|);
    if groups == [] then [""] else seq(|groups|, k requires 0 <= k < |groups| => Join(groups[k], '/'))
  }

  // ---------------------------------------------------------------------
  // Routes

  /** A route's url: one template, or (for decorated methods) a plain and an `{extra}` template. */
  datatype RouteUrl = Single(template: string) | Pair(plain: string, extra: string)

  /** The initkwargs the router reads: `suffix` and `extra_lookup_fields`. */
  datatype Kwargs = Kwargs(suffix: Option<string>, extraLookupFields: Option<seq<string>>)

  datatype Route = Route(url: RouteUrl, mapping: map<string, string>, name: string, initkwargs: Kwargs)

  /** `dict.update`: a key the second dictionary holds wins. */
  function UpdateKwargs(base: Kwargs, changes: Kwargs): Kwargs {
    Kwargs(
      if changes.suffix.Some? then changes.suffix else base.suffix,
      if changes.extraLookupFields.Some? then changes.extraLookupFields else base.extraLookupFields)
  }

  function ExtraPieces(fields: seq<string>): seq<string> {
    if fields == [] then [] else ExtraPieces(fields[..|fields| - 1]) + [NamedGroup(fields[|fields| - 1], SegmentClass)]
  }

  lemma {:induction false} ExtraPiecesShape(fields: seq<string>)
    ensures |ExtraPieces(fields)| == |fields|
    ensures forall k :: 0 <= k < |fields| ==> ExtraPieces(fields)[k] == NamedGroup(fields[k], SegmentClass)
  {
    if fields != [] { ExtraPiecesShape(fields[..|fields| - 1]); }
  }

  /** `get_extra_lookup_regexes`: one `(?P<f>[^/]+)` per extra lookup field, joined by `/`; empty without any. */
  function ExtraLookupRegexes(route: Route): string {
    match route.initkwargs.extraLookupFields
    case None => ""
    case Some(fields) => Join(ExtraPieces(fields), '/')
  }

  method GetExtraLookupRegexes(route: Route) returns (r: string)
    ensures r == ExtraLookupRegexes(route)
    ensures route.initkwargs.extraLookupFields.None? ==> r == ""
    ensures route.initkwargs.extraLookupFields == Some([]) ==> r == ""
  {
    var ret: seq<string> := [];
    if route.initkwargs.extraLookupFields.Some? {
      var fields := route.initkwargs.extraLookupFields.value;
      for k := 0 to |fields|
        invariant ret == ExtraPieces(fields[..k])
      {
        assert fields[..k + 1][..k] == fields[..k];
        ret := ret + [NamedGroup(fields[k], SegmentClass)];
      }
      assert fields[..|fields|] == fields;
    }
    return Join(ret, '/');
  }

  /** The extra segment of a single field is exactly its group; each further field adds `/` and its group. */
  lemma ExtraLookupRegexesOfOneField(route: Route, field: string)
    requires route.initkwargs.extraLookupFields == Some([field])
    ensures ExtraLookupRegexes(route) == NamedGroup(field, SegmentClass)
  {
    assert ExtraPieces([field]) == ExtraPieces([]) + [NamedGroup(field, SegmentClass)];
  }

  /** `make_routes`: a list route whose lookup segment is the template field `templateText`. */
  function MakeRoutes(templateText: string, mapping: map<string, string>): Route {
    Route(Single("^" + (Fld("prefix") + ("/" + (Fld(templateText) + (Fld("trailing_slash") + "$"))))), mapping, Fld("basename") + "-list",
          Kwargs(Some("List"), None))
  }

  lemma FormatFieldThen(name: string, b: string, args: map<string, string>, v: string)
    requires BraceFree(name) && name in args && Format(b, args) == Ok(v)
    ensures Format(Fld(name) + b, args) == Ok(args[name] + v)
  {
    FormatField(name, b, args);
  }

  lemma FormatLiteralThen(a: string, b: string, args: map<string, string>, v: string)
    requires BraceFree(a) && Format(b, args) == Ok(v)
    ensures Format(a + b, args) == Ok(a + v)
  {
    FormatLiteral(a, b, args);
  }

  /** The lookup segment, trailing slash and `$` of a `make_routes` url. */
  lemma MakeRoutesUrlTail(templateText: string, args: map<string, string>)
    requires BraceFree(templateText) && templateText in args && "trailing_slash" in args
    ensures Format("/" + (Fld(templateText) + (Fld("trailing_slash") + "$")), args)
         == Ok("/" + (args[templateText] + (args["trailing_slash"] + "$")))
  {
    FormatLiteral("$", "", args);
    assert "$" + "" == "$";
    FormatFieldThen("trailing_slash", "$", args, "$");
    FormatFieldThen(templateText, Fld("trailing_slash") + "$", args, args["trailing_slash"] + "$");
    FormatLiteralThen("/", Fld(templateText) + (Fld("trailing_slash") + "$"), args, args[templateText] + (args["trailing_slash"] + "$"));
  }

  /** Formatting a `make_routes` url gives `^<prefix>/<lookup segment><trailing slash>$`. */
  lemma MakeRoutesUrl(templateText: string, mapping: map<string, string>, args: map<string, string>)
    requires BraceFree(templateText)
    requires "prefix" in args && templateText in args && "trailing_slash" in args
    ensures Format(MakeRoutes(templateText, mapping).url.template, args)
         == Ok("^" + (args["prefix"] + ("/" + (args[templateText] + (args["trailing_slash"] + "$")))))
  {
    var t3 := "/" + (Fld(templateText) + (Fld("trailing_slash") + "$"));
    var v3 := "/" + (args[templateText] + (args["trailing_slash"] + "$"));
    MakeRoutesUrlTail(templateText, args);
    FormatFieldThen("prefix", t3, args, v3);
    FormatLiteralThen("^", Fld("prefix") + t3, args, args["prefix"] + v3);
  }

  /** Formatting a `make_routes` name gives `<basename>-list`. */
  lemma MakeRoutesName(templateText: string, mapping: map<string, string>, basename: string)
    ensures Format(MakeRoutes(templateText, mapping).name, map["basename" := basename]) == Ok(basename + "-list")
  {
    var args := map["basename" := basename];
    FormatLiteral("-list", "", args);
    assert "-list" + "" == "-list";
    FormatField("basename", "-list", args);
  }

  const DetailMapping: map<string, string> :=
    map["get" := "retrieve", "put" := "update", "patch" := "partial_update", "delete" := "destroy"]
  const LookupMapping: map<string, string> := map["get" := "list", "post" := "create", "delete" := "destroy"]
  const LookupsMapping: map<string, string> := map["get" := "list", "post" := "create"]
  /** The placeholder mapping that marks the route of decorated methods. */
  const DynamicMapping: map<string, string> := map["{httpmethod}" := "{methodname}"]

  const DetailRoute := Route(
    Single("^" + Fld("prefix") + "/" + Fld("lookups") + Fld("trailing_slash") + "$"),
    DetailMapping, Fld("basename") + "-detail", Kwargs(Some("Instance"), None))
  const DynamicRoute := Route(
    Pair("^" + Fld("prefix") + "/" + Fld("lookups") + "/" + Fld("methodname") + Fld("trailing_slash") + "$",
         "^" + Fld("prefix") + "/" + Fld("lookups") + "/" + Fld("methodname") + "/" + Fld("extra") + Fld("trailing_slash") + "$"),
    DynamicMapping, Fld("basename") + "-" + Fld("methodnamehyphen"), Kwargs(None, None))

  /** The routes `__init__` stores in `lookups_routes`, in order. */
  const InitialLookupsRoutes: seq<Route> :=
    [DetailRoute, MakeRoutes("lookup", LookupMapping), MakeRoutes("lookups", LookupsMapping), DynamicRoute]

  /** Every route marked as dynamic carries the pair of urls that `get_lookup_routes` indexes. */
  predicate WellFormedLookupsRoutes(routes: seq<Route>) {
    forall k :: 0 <= k < |routes| && routes[k].mapping == DynamicMapping ==> routes[k].url.Pair?
  }

  // ---------------------------------------------------------------------
  // Viewsets and decorated methods

  /** A method decorated with `@action`/`@link`: its name, `bind_to_methods` and its own initkwargs. */
  datatype ExtraAction = ExtraAction(name: string, httpMethods: seq<string>, kwargs: Kwargs)

  /**
   * What the router reads from a viewset: `lookup_fields`, the regex of its
   * single lookup (`get_lookup_regex`), its decorated methods in the order
   * `dir()` lists them, and the names of the actions it implements.
   */
  datatype Viewset = Viewset(lookupFields: seq<string>, lookupRegex: string, extraActions: seq<ExtraAction>, actions: set<string>)

  /** The `(httpmethods, methodname)` pairs of methods whose `bind_to_methods` is non-empty. */
  function Decorated(extraActions: seq<ExtraAction>): (r: seq<ExtraAction>)
    ensures forall a :: a in r <==> a in extraActions && a.httpMethods != []
  {
    if extraActions == [] then []
    else
      var rest := Decorated(extraActions[1..]);
      assert forall a :: a in extraActions <==> a == extraActions[0] || a in extraActions[1..];
      if extraActions[0].httpMethods != [] then [extraActions[0]] + rest else rest
  }

  function LowerAll(methods: seq<string>): (r: seq<string>)
    ensures |r| == |methods| && forall k :: 0 <= k < |r| ==> r[k] == Lower(methods[k])
  {
    if methods == [] then [] else [Lower(methods[0])] + LowerAll(methods[1..])
  }

  /** `{httpmethod: methodname for httpmethod in methods}`. */
  function MethodsTo(methods: seq<string>, methodName: string): (mapping: map<string, string>)
    ensures forall m :: m in mapping <==> m in methods
    ensures forall m :: m in mapping ==> mapping[m] == methodName
  {
    map m | m in methods :: methodName
  }

  /**
   * What the routes `r` of one decorated method look like: the plain route
   * last, preceded by the `-extra` route when the merged initkwargs hold
   * `extra_lookup_fields`; every one carries the merged initkwargs and maps
   * each of the method's lower-cased HTTP methods, and only those, to the
   * method's name.
   */
  ghost predicate DynamicShape(route: Route, action: ExtraAction, replace: (string, string) -> string, r: seq<Route>)
    requires route.url.Pair?
  {
    var initkwargs := UpdateKwargs(route.initkwargs, action.kwargs);
    && |r| == (if initkwargs.extraLookupFields.Some? then 2 else 1)
    && r[|r| - 1].url == Single(replace(route.url.plain, action.name))
    && r[|r| - 1].name == replace(route.name, action.name)
    && (|r| == 2 ==> r[0].url == Single(replace(route.url.extra, action.name))
                     && r[0].name == replace(route.name, action.name) + "-extra")
    && (forall k :: 0 <= k < |r| ==> r[k].initkwargs == initkwargs)
    && (forall k, m :: 0 <= k < |r| ==> (m in r[k].mapping <==> m in LowerAll(action.httpMethods)))
    && (forall k, m :: 0 <= k < |r| && m in r[k].mapping ==> r[k].mapping[m] == action.name)
  }

  /**
   * The routes of one decorated method.
   * `replace` is the framework's `replace_methodname`.
   */
  function DynamicFor(route: Route, action: ExtraAction, replace: (string, string) -> string): (r: seq<Route>)
    requires route.url.Pair?
    ensures DynamicShape(route, action, replace, r)
  {
    var initkwargs := UpdateKwargs(route.initkwargs, action.kwargs);
    var methods := LowerAll(action.httpMethods);
    var mapping := MethodsTo(methods, action.name);
    var name := replace(route.name, action.name);
    var plain := Route(Single(replace(route.url.plain, action.name)), mapping, name, initkwargs);
    if initkwargs.extraLookupFields.Some? then
      [Route(Single(replace(route.url.extra, action.name)), mapping, name + "-extra", initkwargs), plain]
    else [plain]
  }

  /** The blocks of `blocks` joined, block after block. */
  function Flatten<T>(blocks: seq<seq<T>>): seq<T> {
    if blocks == [] then [] else Flatten(blocks[..|blocks| - 1]) + blocks[|blocks| - 1]
  }

  /** The routes of each method in `dynamic`, one block per method. */
  function DynamicBlocks(route: Route, dynamic: seq<ExtraAction>, replace: (string, string) -> string): (blocks: seq<seq<Route>>)
    requires route.url.Pair?
    ensures |blocks| == |dynamic|
    ensures forall k :: 0 <= k < |dynamic| ==> blocks[k] == DynamicFor(route, dynamic[k], replace)
  {
    seq(|dynamic|, k requires 0 <= k < |dynamic| => DynamicFor(route, dynamic[k], replace))
  }

  /** The routes of the decorated methods `dynamic`, method after method. */
  function DynamicRoutes(route: Route, dynamic: seq<ExtraAction>, replace: (string, string) -> string): seq<Route>
    requires route.url.Pair?
  {
    Flatten(DynamicBlocks(route, dynamic, replace))
  }

  /** The first loop of `get_lookup_routes`: the methods whose `bind_to_methods` is non-empty. */
  method CollectDecorated(methods: seq<ExtraAction>) returns (dynamic: seq<ExtraAction>)
    ensures dynamic == Decorated(methods)
    ensures forall a :: a in dynamic ==> a.httpMethods != []
  {
    dynamic := [];
    for k := 0 to |methods|
      invariant Decorated(methods) == dynamic + Decorated(methods[k..])
    {
      CollectStep(methods, k, dynamic);
      if methods[k].httpMethods != [] {
        dynamic := dynamic + [methods[k]];
      }
    }
    assert methods[|methods|..] == [];
  }

  /** The loop invariant of `CollectDecorated` carried over one method. */
  lemma CollectStep(methods: seq<ExtraAction>, k: nat, dynamic: seq<ExtraAction>)
    requires k < |methods| && Decorated(methods) == dynamic + Decorated(methods[k..])
    ensures Decorated(methods) == (dynamic + (if methods[k].httpMethods != [] then [methods[k]] else [])) + Decorated(methods[k + 1..])
  {
    DecoratedStep(methods, k);
    var collected := if methods[k].httpMethods != [] then [methods[k]] else [];
    ConcatAssoc(dynamic, collected, Decorated(methods[k + 1..]));
  }

  lemma ConcatAssoc<T>(a: seq<T>, b: seq<T>, c: seq<T>)
    ensures a + (b + c) == (a + b) + c
  {
  }

  /** One method further: it is collected exactly when it is decorated. */
  lemma DecoratedStep(methods: seq<ExtraAction>, k: nat)
    requires k < |methods|
    ensures Decorated(methods[k..]) == (if methods[k].httpMethods != [] then [methods[k]] else []) + Decorated(methods[k + 1..])
  {
    assert methods[k..][1..] == methods[k + 1..];
  }

  /** The inner loop of `get_lookup_routes` over the decorated methods. */
  method ExpandDynamic(route: Route, dynamic: seq<ExtraAction>, replace: (string, string) -> string) returns (added: seq<Route>)
    requires route.url.Pair?
    ensures added == DynamicRoutes(route, dynamic, replace)
  {
    added := [];
    for d := 0 to |dynamic|
      invariant added == DynamicRoutes(route, dynamic[..d], replace)
    {
      assert dynamic[..d + 1][..d] == dynamic[..d];
      var action := dynamic[d];
      var initkwargs := UpdateKwargs(route.initkwargs, action.kwargs);
      var mapping := MethodsTo(LowerAll(action.httpMethods), action.name);
      var name := replace(route.name, action.name);
      var routesOfAction: seq<Route> := [];
      if initkwargs.extraLookupFields.Some? {
        var uri := replace(route.url.extra, action.name);
        routesOfAction := routesOfAction + [Route(Single(uri), mapping, name + "-extra", initkwargs)];
      }
      var uri := replace(route.url.plain, action.name);
      routesOfAction := routesOfAction + [Route(Single(uri), mapping, name, initkwargs)];
      assert routesOfAction == DynamicFor(route, action, replace);
      assert DynamicBlocks(route, dynamic[..d + 1], replace) == DynamicBlocks(route, dynamic[..d], replace) + [routesOfAction];
      FlattenSnoc(DynamicBlocks(route, dynamic[..d], replace), routesOfAction);
      added := added + routesOfAction;
    }
    assert dynamic[..|dynamic|] == dynamic;
  }

  lemma WellFormedPrefix(routes: seq<Route>, n: nat)
    requires WellFormedLookupsRoutes(routes) && n <= |routes|
    ensures WellFormedLookupsRoutes(routes[..n])
  {
    assert forall k :: 0 <= k < n ==> routes[..n][k] == routes[k];
  }

  /** The second loop of `get_lookup_routes`: standard routes are kept, the dynamic one is expanded. */
  method ExpandLookupsRoutes(lookupsRoutes: seq<Route>, dynamic: seq<ExtraAction>, replace: (string, string) -> string)
    returns (ret: seq<Route>)
    requires WellFormedLookupsRoutes(lookupsRoutes)
    ensures ret == ExpandRoutes(lookupsRoutes, dynamic, replace)
  {
    ret := [];
    for i := 0 to |lookupsRoutes|
      invariant WellFormedLookupsRoutes(lookupsRoutes[..i])
      invariant ret == ExpandRoutes(lookupsRoutes[..i], dynamic, replace)
    {
      WellFormedPrefix(lookupsRoutes, i + 1);
      assert lookupsRoutes[..i + 1][..i] == lookupsRoutes[..i];
      var route := lookupsRoutes[i];
      assert lookupsRoutes[..i + 1][i] == route;
      if route.mapping == DynamicMapping {
        var added := ExpandDynamic(route, dynamic, replace);
        ret := ret + added;
      } else {
        ret := ret + [route];
      }
    }
    assert lookupsRoutes[..|lookupsRoutes|] == lookupsRoutes;
  }

  /** Each decorated method's routes sit together, in method order, after those of the methods before it. */
  lemma {:induction false} DynamicRoutesBlocks(route: Route, dynamic: seq<ExtraAction>, replace: (string, string) -> string, i: nat)
    requires route.url.Pair? && i < |dynamic|
    ensures var start := |DynamicRoutes(route, dynamic[..i], replace)|;
      var block := DynamicFor(route, dynamic[i], replace);
      start + |block| <= |DynamicRoutes(route, dynamic, replace)| &&
      DynamicRoutes(route, dynamic, replace)[start..start + |block|] == block
  {
    var blocks := DynamicBlocks(route, dynamic, replace);
    assert DynamicBlocks(route, dynamic[..i], replace) == blocks[..i];
    FlattenBlock(blocks, i);
  }

  /** Block `i` sits in the flattening right after the blocks before it. */
  lemma {:induction false} FlattenBlock<T>(blocks: seq<seq<T>>, i: nat)
    requires i < |blocks|
    ensures var start := |Flatten(blocks[..i])|;
      start + |blocks[i]| <= |Flatten(blocks)| && Flatten(blocks)[start..start + |blocks[i]|] == blocks[i]
  {
    var n := |blocks|;
    var front := blocks[..n - 1];
    if i == n - 1 {
      assert blocks[..i] == front;
      BlockAtEnd(Flatten(front), blocks[i]);
    } else {
      assert front[..i] == blocks[..i] && front[i] == blocks[i];
      FlattenBlock(front, i);
      BlockStaysBefore(Flatten(front), blocks[n - 1], |Flatten(front[..i])|, front[i]);
    }
  }

  lemma FlattenSnoc<T>(blocks: seq<seq<T>>, block: seq<T>)
    ensures Flatten(blocks + [block]) == Flatten(blocks) + block
  {
    assert (blocks + [block])[..|blocks|] == blocks;
  }

  lemma BlockStaysBefore<T>(before: seq<T>, last: seq<T>, start: nat, block: seq<T>)
    requires start + |block| <= |before| && before[start..start + |block|] == block
    ensures start + |block| <= |before + last| && (before + last)[start..start + |block|] == block
  {
    assert forall k :: start <= k < start + |block| ==> (before + last)[k] == before[k];
  }

  lemma BlockAtEnd<T>(before: seq<T>, last: seq<T>)
    ensures (before + last)[|before|..|before| + |last|] == last
  {
    assert forall k :: 0 <= k < |last| ==> (before + last)[|before| + k] == last[k];
  }


  /** The lookup routes after the first: standard routes as they are, the dynamic one expanded per decorated method. */
  function ExpandRoutes(lookupsRoutes: seq<Route>, dynamic: seq<ExtraAction>, replace: (string, string) -> string): seq<Route>
    requires WellFormedLookupsRoutes(lookupsRoutes)
  {
    if lookupsRoutes == [] then []
    else
      var n := |lookupsRoutes|;
      var route := lookupsRoutes[n - 1];
      assert WellFormedLookupsRoutes(lookupsRoutes[..n - 1]) by {
        forall k | 0 <= k < n - 1 ensures lookupsRoutes[..n - 1][k] == lookupsRoutes[k] { }
      }
      ExpandRoutes(lookupsRoutes[..n - 1], dynamic, replace)
        + (if route.mapping == DynamicMapping then DynamicRoutes(route, dynamic, replace) else [route])
  }

  /** `get_lookup_routes`: the router's first default route, then the expanded lookup routes. */
  function LookupRoutes(first: Route, lookupsRoutes: seq<Route>, viewset: Viewset, replace: (string, string) -> string): seq<Route>
    requires WellFormedLookupsRoutes(lookupsRoutes)
  {
    [first] + ExpandRoutes(lookupsRoutes, Decorated(viewset.extraActions), replace)
  }

  /** Only the last of the routes `__init__` installs is the dynamic one. */
  lemma InitialLookupsRoutesWellFormed()
    ensures WellFormedLookupsRoutes(InitialLookupsRoutes)
    ensures forall k :: 0 <= k < 3 ==> InitialLookupsRoutes[k].mapping != DynamicMapping
    ensures InitialLookupsRoutes[3].mapping == DynamicMapping
  {
    assert "get" !in DynamicMapping;
    assert "get" in DetailMapping && "get" in LookupMapping && "get" in LookupsMapping;
  }

  /** With the routes `__init__` installs: the first default route, detail, the two list routes, then the decorated methods' routes. */
  lemma StandardLookupRoutes(first: Route, viewset: Viewset, replace: (string, string) -> string)
    ensures WellFormedLookupsRoutes(InitialLookupsRoutes)
    ensures LookupRoutes(first, InitialLookupsRoutes, viewset, replace)
         == [first, DetailRoute, MakeRoutes("lookup", LookupMapping), MakeRoutes("lookups", LookupsMapping)]
            + DynamicRoutes(DynamicRoute, Decorated(viewset.extraActions), replace)
  {
    var dynamic := Decorated(viewset.extraActions);
    var a, b := MakeRoutes("lookup", LookupMapping), MakeRoutes("lookups", LookupsMapping);
    assert "get" !in DynamicMapping;
    assert "get" in DetailMapping && "get" in LookupMapping && "get" in LookupsMapping;
    assert InitialLookupsRoutes == [DetailRoute, a, b, DynamicRoute];
    ExpandFour(DetailRoute, a, b, DynamicRoute, dynamic, replace);
  }

  /** Three standard routes followed by the dynamic one expand to themselves followed by the decorated methods' routes. */
  lemma ExpandFour(r0: Route, r1: Route, r2: Route, r3: Route, dynamic: seq<ExtraAction>, replace: (string, string) -> string)
    requires r0.mapping != DynamicMapping && r1.mapping != DynamicMapping && r2.mapping != DynamicMapping
    requires r3.mapping == DynamicMapping && r3.url.Pair?
    ensures WellFormedLookupsRoutes([r0, r1, r2, r3])
    ensures ExpandRoutes([r0, r1, r2, r3], dynamic, replace) == [r0, r1, r2] + DynamicRoutes(r3, dynamic, replace)
  {
    var rs := [r0, r1, r2, r3];
    assert WellFormedLookupsRoutes(rs);
    assert [r0][..0] == [] && [r0, r1][..1] == [r0] && [r0, r1, r2][..2] == [r0, r1] && rs[..3] == [r0, r1, r2];
    assert ExpandRoutes([r0], dynamic, replace) == [r0];
    assert ExpandRoutes([r0, r1], dynamic, replace) == [r0, r1];
    assert ExpandRoutes([r0, r1, r2], dynamic, replace) == [r0, r1, r2];
  }

  /** The decorated methods of the dynamic route: one route each, plus an `-extra` route exactly when its kwargs give extra lookup fields. */
  lemma DynamicRouteExtraIff(action: ExtraAction, replace: (string, string) -> string)
    ensures |DynamicFor(DynamicRoute, action, replace)| == 2 <==> action.kwargs.extraLookupFields.Some?
  {
  }

  // ---------------------------------------------------------------------
  // URL patterns

  datatype Registration = Registration(prefix: string, viewset: Viewset, basename: string)

  /** A URL pattern: the formatted regex and the view (method map and initkwargs), named; or the API root view. */
  datatype UrlPattern =
    | Pattern(regex: string, mapping: map<string, string>, initkwargs: Kwargs, name: string)
    | RootPattern(name: string)

  /** The framework's `get_method_map`: only the methods whose action the viewset implements. */
  function MethodMap(viewset: Viewset, mapping: map<string, string>): (r: map<string, string>)
    ensures forall m :: m in r <==> m in mapping && mapping[m] in viewset.actions
    ensures forall m :: m in r ==> r[m] == mapping[m]
  {
    map m | m in mapping && mapping[m] in viewset.actions :: mapping[m]
  }

  function Then<T>(acc: seq<T>, r: Result<seq<T>, UrlError>): Result<seq<T>, UrlError> {
    if r.Ok? then Ok(acc + r.value) else r
  }

  lemma ThenAssociates<T>(a: seq<T>, b: seq<T>, r: Result<seq<T>, UrlError>)
    ensures Then(a, Then(b, r)) == Then(a + b, r)
  {
    if r.Ok? { assert a + (b + r.value) == (a + b) + r.value; }
  }

  function UrlArgs(reg: Registration, route: Route, lookups: string, trailingSlash: string): map<string, string> {
    map["prefix" := reg.prefix, "lookup" := reg.viewset.lookupRegex, "lookups" := lookups,
        "trailing_slash" := trailingSlash, "extra" := ExtraLookupRegexes(route)]
  }

  /** One pattern: the route's url and name formatted for this registration and lookup variant. */
  function PatternFor(reg: Registration, route: Route, mapping: map<string, string>, lookups: string, trailingSlash: string)
    : Result<UrlPattern, UrlError>
  {
    if route.url.Pair? then Err(NotATemplate)
    else
      var regex :- Format(route.url.template, UrlArgs(reg, route, lookups, trailingSlash));
      var name :- Format(route.name, map["basename" := reg.basename]);
      Ok(Pattern(regex, mapping, route.initkwargs, name))
  }

  /** One pattern per lookup variant, in order. */
  function LookupPatterns(reg: Registration, route: Route, mapping: map<string, string>, lookupList: seq<string>, trailingSlash: string)
    : Result<seq<UrlPattern>, UrlError>
  {
    if lookupList == [] then Ok([])
    else
      var first :- PatternFor(reg, route, mapping, lookupList[0], trailingSlash);
      var rest :- LookupPatterns(reg, route, mapping, lookupList[1..], trailingSlash);
      Ok([first] + rest)
  }

  /** A route whose method map comes out empty emits nothing. */
  function RoutePatterns(reg: Registration, route: Route, lookupList: seq<string>, trailingSlash: string)
    : Result<seq<UrlPattern>, UrlError>
  {
    var mapping := MethodMap(reg.viewset, route.mapping);
    if mapping == map[] then Ok([]) else LookupPatterns(reg, route, mapping, lookupList, trailingSlash)
  }

  function RoutesPatterns(reg: Registration, routes: seq<Route>, lookupList: seq<string>, trailingSlash: string)
    : Result<seq<UrlPattern>, UrlError>
  {
    if routes == [] then Ok([])
    else
      var first :- RoutePatterns(reg, routes[0], lookupList, trailingSlash);
      var rest :- RoutesPatterns(reg, routes[1..], lookupList, trailingSlash);
      Ok(first + rest)
  }

  /** `get_routes`: the lookup routes for a viewset with lookup fields, the framework's routes (`defaultRoutes`) otherwise. */
  function RoutesFor(first: Route, lookupsRoutes: seq<Route>, viewset: Viewset, defaultRoutes: seq<Route>, replace: (string, string) -> string)
    : seq<Route>
    requires WellFormedLookupsRoutes(lookupsRoutes)
  {
    if viewset.lookupFields != [] then LookupRoutes(first, lookupsRoutes, viewset, replace) else defaultRoutes
  }

  /** The patterns of one registration: its routes, each formatted for each lookup variant. */
  function RegistrationPatterns(reg: Registration, first: Route, lookupsRoutes: seq<Route>, trailingSlash: string,
                                defaultRoutes: Viewset -> seq<Route>, replace: (string, string) -> string)
    : Result<seq<UrlPattern>, UrlError>
    requires WellFormedLookupsRoutes(lookupsRoutes)
  {
    var routes := RoutesFor(first, lookupsRoutes, reg.viewset, defaultRoutes(reg.viewset), replace);
    RoutesPatterns(reg, routes, LookupList(reg.viewset.lookupFields), trailingSlash)
  }

  function RegistryPatterns(registry: seq<Registration>, first: Route, lookupsRoutes: seq<Route>, trailingSlash: string,
                            defaultRoutes: Viewset -> seq<Route>, replace: (string, string) -> string)
    : Result<seq<UrlPattern>, UrlError>
    requires WellFormedLookupsRoutes(lookupsRoutes)
  {
    if registry == [] then Ok([])
    else
      var patterns :- RegistrationPatterns(registry[0], first, lookupsRoutes, trailingSlash, defaultRoutes, replace);
      var rest :- RegistryPatterns(registry[1..], first, lookupsRoutes, trailingSlash, defaultRoutes, replace);
      Ok(patterns + rest)
  }

  /** One registration further into the registry: its patterns come next, or its error ends the walk. */
  lemma RegistryPatternsStep(registry: seq<Registration>, i: nat, acc: seq<UrlPattern>, first: Route, lookupsRoutes: seq<Route>,
                             trailingSlash: string, defaultRoutes: Viewset -> seq<Route>, replace: (string, string) -> string)
    requires i < |registry| && WellFormedLookupsRoutes(lookupsRoutes)
    ensures var here := RegistrationPatterns(registry[i], first, lookupsRoutes, trailingSlash, defaultRoutes, replace);
      var rest := RegistryPatterns(registry[i..], first, lookupsRoutes, trailingSlash, defaultRoutes, replace);
      var later := RegistryPatterns(registry[i + 1..], first, lookupsRoutes, trailingSlash, defaultRoutes, replace);
      && (here.Err? ==> Then(acc, rest) == Err(here.error))
      && (here.Ok? ==> Then(acc, rest) == Then(acc + here.value, later))
  {
    var tail := registry[i..];
    assert tail[0] == registry[i] && tail[1..] == registry[i + 1..];
    var here := RegistrationPatterns(registry[i], first, lookupsRoutes, trailingSlash, defaultRoutes, replace);
    var later := RegistryPatterns(registry[i + 1..], first, lookupsRoutes, trailingSlash, defaultRoutes, replace);
    if here.Ok? {
      ThenAssociates(acc, here.value, later);
    }
  }

  /** A route with a non-empty method map gives exactly one pattern per lookup variant. */
  lemma {:induction false} LookupPatternsCount(reg: Registration, route: Route, mapping: map<string, string>, lookupList: seq<string>, trailingSlash: string)
    requires LookupPatterns(reg, route, mapping, lookupList, trailingSlash).Ok?
    ensures var ps := LookupPatterns(reg, route, mapping, lookupList, trailingSlash).value;
      |ps| == |lookupList| &&
      forall k :: 0 <= k < |ps| ==> PatternFor(reg, route, mapping, lookupList[k], trailingSlash) == Ok(ps[k])
  {
    if lookupList != [] {
      LookupPatternsCount(reg, route, mapping, lookupList[1..], trailingSlash);
    }
  }

  /** `get_urls` for one list route: each pattern's regex is `^<prefix>/<lookups><trailing slash>$` and its name `<basename>-list`. */
  lemma ListRoutePattern(reg: Registration, mapping: map<string, string>, lookupList: seq<string>, trailingSlash: string, k: nat)
    requires k < |lookupList|
    ensures var route := MakeRoutes("lookups", LookupsMapping);
      var ps := LookupPatterns(reg, route, mapping, lookupList, trailingSlash);
      && ps.Ok? && |ps.value| == |lookupList|
      && ps.value[k] == Pattern("^" + (reg.prefix + ("/" + (lookupList[k] + (trailingSlash + "$")))), mapping, Kwargs(Some("List"), None), reg.basename + "-list")
  {
    var route := MakeRoutes("lookups", LookupsMapping);
    forall l | l in lookupList
      ensures PatternFor(reg, route, mapping, l, trailingSlash)
           == Ok(Pattern("^" + (reg.prefix + ("/" + (l + (trailingSlash + "$")))), mapping, Kwargs(Some("List"), None), reg.basename + "-list"))
    {
      MakeRoutesUrl("lookups", LookupsMapping, UrlArgs(reg, route, l, trailingSlash));
      MakeRoutesName("lookups", LookupsMapping, reg.basename);
    }
    LookupPatternsAllOk(reg, route, mapping, lookupList, trailingSlash);
    LookupPatternsCount(reg, route, mapping, lookupList, trailingSlash);
  }

  lemma {:induction false} LookupPatternsAllOk(reg: Registration, route: Route, mapping: map<string, string>, lookupList: seq<string>, trailingSlash: string)
    requires forall l :: l in lookupList ==> PatternFor(reg, route, mapping, l, trailingSlash).Ok?
    ensures LookupPatterns(reg, route, mapping, lookupList, trailingSlash).Ok?
  {
    if lookupList != [] {
      assert lookupList[0] in lookupList;
      assert forall l :: l in lookupList[1..] ==> l in lookupList;
      LookupPatternsAllOk(reg, route, mapping, lookupList[1..], trailingSlash);
    }
  }

  // ---------------------------------------------------------------------
  // The router object

  class MultiLookupRouter {
    /** The framework's default routes (`self.routes`). */
    var routes: seq<Route>
    var lookupsRoutes: seq<Route>
    var trailingSlash: string
    var registry: seq<Registration>
    var includeRootView: bool
    var rootViewName: string

    predicate Valid()
      reads this
    {
      |routes| > 0 && WellFormedLookupsRoutes(lookupsRoutes)
    }

    /** `__init__`: the framework's fields, then the four lookup routes appended one by one. */
    constructor (defaultRoutes: seq<Route>, trailingSlash: bool)
      requires |defaultRoutes| > 0
      ensures Valid()
      ensures routes == defaultRoutes && lookupsRoutes == InitialLookupsRoutes
      ensures this.trailingSlash == (if trailingSlash then "/" else "")
      ensures registry == [] && includeRootView && rootViewName == "api-root"
    {
      routes := defaultRoutes;
      this.trailingSlash := if trailingSlash then "/" else "";
      registry := [];
      includeRootView := true;
      rootViewName := "api-root";
      lookupsRoutes := [];
      new;
      lookupsRoutes := lookupsRoutes + [DetailRoute];
      lookupsRoutes := lookupsRoutes + [MakeRoutes("lookup", LookupMapping)];
      lookupsRoutes := lookupsRoutes + [MakeRoutes("lookups", LookupsMapping)];
      lookupsRoutes := lookupsRoutes + [DynamicRoute];
      assert lookupsRoutes == InitialLookupsRoutes;
      InitialLookupsRoutesWellFormed();
    }

    /** `router.register(prefix, viewset, base_name)`. */
    method Register(prefix: string, viewset: Viewset, basename: string)
      modifies this
      ensures registry == old(registry) + [Registration(prefix, viewset, basename)]
      ensures routes == old(routes) && lookupsRoutes == old(lookupsRoutes) && trailingSlash == old(trailingSlash)
      ensures includeRootView == old(includeRootView) && rootViewName == old(rootViewName)
    {
      registry := registry + [Registration(prefix, viewset, basename)];
    }

    /** `get_lookup_routes`: collects the decorated methods, then expands the lookup routes. */
    method GetLookupRoutes(viewset: Viewset, replace: (string, string) -> string) returns (ret: seq<Route>)
      requires Valid()
      ensures ret == LookupRoutes(routes[0], lookupsRoutes, viewset, replace)
      ensures ret[0] == routes[0]
    {
      var dynamic := CollectDecorated(viewset.extraActions);
      var expanded := ExpandLookupsRoutes(lookupsRoutes, dynamic, replace);
      ret := [routes[0]] + expanded;
    }

    /** `get_routes`: the lookup routes exactly when the viewset has lookup fields. */
    method GetRoutes(viewset: Viewset, defaultRoutes: seq<Route>, replace: (string, string) -> string) returns (ret: seq<Route>)
      requires Valid()
      ensures ret == RoutesFor(routes[0], lookupsRoutes, viewset, defaultRoutes, replace)
      ensures viewset.lookupFields != [] ==> ret[0] == routes[0]
      ensures viewset.lookupFields == [] ==> ret == defaultRoutes
    {
      if viewset.lookupFields != [] {
        ret := GetLookupRoutes(viewset, replace);
      } else {
        ret := defaultRoutes;
      }
    }

    /** What `get_urls` returns before format suffixes are added: the root view, then every registration's patterns. */
    function Urls(defaultRoutes: Viewset -> seq<Route>, replace: (string, string) -> string): Result<seq<UrlPattern>, UrlError>
      reads this
      requires Valid()
    {
      Then(if includeRootView then [RootPattern(rootViewName)] else [],
           RegistryPatterns(registry, routes[0], lookupsRoutes, trailingSlash, defaultRoutes, replace))
    }

    /** The body of the registry loop of `get_urls`. */
    method PatternsOfRegistration(reg: Registration, defaultRoutes: Viewset -> seq<Route>, replace: (string, string) -> string)
      returns (r: Result<seq<UrlPattern>, UrlError>)
      requires Valid()
      ensures r == RegistrationPatterns(reg, routes[0], lookupsRoutes, trailingSlash, defaultRoutes, replace)
    {
      var lookupList := LookupListOf(reg.viewset.lookupFields);
      var routeList := GetRoutes(reg.viewset, defaultRoutes(reg.viewset), replace);
      r := PatternsOfRoutes(reg, routeList, lookupList, trailingSlash);
    }

    /** `get_urls`: for each registration, each route with a non-empty method map, each lookup variant. */
    method GetUrls(defaultRoutes: Viewset -> seq<Route>, replace: (string, string) -> string) returns (r: Result<seq<UrlPattern>, UrlError>)
      requires Valid()
      ensures r == Urls(defaultRoutes, replace)
    {
      var ret: seq<UrlPattern> := [];
      if includeRootView {
        ret := ret + [RootPattern(rootViewName)];
      }
      assert ret == if includeRootView then [RootPattern(rootViewName)] else [];
      r := PatternsOfRegistry(registry, ret, defaultRoutes, replace);
    }

    /** The registry loop of `get_urls`, appending to the patterns `ret` already holds. */
    method PatternsOfRegistry(regs: seq<Registration>, ret0: seq<UrlPattern>, defaultRoutes: Viewset -> seq<Route>, replace: (string, string) -> string)
      returns (r: Result<seq<UrlPattern>, UrlError>)
      requires Valid()
      ensures r == Then(ret0, RegistryPatterns(regs, routes[0], lookupsRoutes, trailingSlash, defaultRoutes, replace))
    {
      var ret := ret0;
      assert regs[0..] == regs;
      for i := 0 to |regs|
        invariant Then(ret0, RegistryPatterns(regs, routes[0], lookupsRoutes, trailingSlash, defaultRoutes, replace))
               == Then(ret, RegistryPatterns(regs[i..], routes[0], lookupsRoutes, trailingSlash, defaultRoutes, replace))
      {
        var patterns := PatternsOfRegistration(regs[i], defaultRoutes, replace);
        RegistryPatternsStep(regs, i, ret, routes[0], lookupsRoutes, trailingSlash, defaultRoutes, replace);
        if patterns.Err? {
          return Err(patterns.error);
        }
        ret := ret + patterns.value;
      }
      assert ret + [] == ret;
      return Ok(ret);
    }
  }

  /** `lookup_list` in `get_urls`: the groups joined by `/`, or `['']` when there is none. */
  method LookupListOf(fields: seq<string>) returns (lookupList: seq<string>)
    ensures lookupList == LookupList(fields)
  {
    var groups := GetLookupRegexes(fields);
    if groups != [] {
      lookupList := seq(|groups|, k requires 0 <= k < |groups| => Join(groups[k], '/'));
    } else {
      lookupList := [""];
    }
  }

  lemma ThenEmpty<T>(r: Result<seq<T>, UrlError>)
    ensures Then([], r) == r
  {
    if r.Ok? { assert [] + r.value == r.value; }
  }

  /** The innermost loop of `get_urls`: one pattern per lookup variant. */
  method PatternsOfLookups(reg: Registration, route: Route, mapping: map<string, string>, lookupList: seq<string>, trailingSlash: string)
    returns (r: Result<seq<UrlPattern>, UrlError>)
    ensures r == LookupPatterns(reg, route, mapping, lookupList, trailingSlash)
  {
    var added: seq<UrlPattern> := [];
    assert lookupList[0..] == lookupList;
    ThenEmpty(LookupPatterns(reg, route, mapping, lookupList, trailingSlash));
    for j := 0 to |lookupList|
      invariant LookupPatterns(reg, route, mapping, lookupList, trailingSlash)
             == Then(added, LookupPatterns(reg, route, mapping, lookupList[j..], trailingSlash))
    {
      var rest := lookupList[j..];
      assert rest[0] == lookupList[j] && rest[1..] == lookupList[j + 1..];
      var pattern := PatternFor(reg, route, mapping, lookupList[j], trailingSlash);
      if pattern.Err? {
        return Err(pattern.error);
      }
      var later := LookupPatterns(reg, route, mapping, lookupList[j + 1..], trailingSlash);
      assert LookupPatterns(reg, route, mapping, rest, trailingSlash) == Then([pattern.value], later);
      ThenAssociates(added, [pattern.value], later);
      added := added + [pattern.value];
    }
    assert added + [] == added;
    return Ok(added);
  }

  /** The middle loop of `get_urls`: a route whose method map is empty is skipped. */
  method PatternsOfRoutes(reg: Registration, routes: seq<Route>, lookupList: seq<string>, trailingSlash: string)
    returns (r: Result<seq<UrlPattern>, UrlError>)
    ensures r == RoutesPatterns(reg, routes, lookupList, trailingSlash)
  {
    var ret: seq<UrlPattern> := [];
    assert routes[0..] == routes;
    ThenEmpty(RoutesPatterns(reg, routes, lookupList, trailingSlash));
    for i := 0 to |routes|
      invariant RoutesPatterns(reg, routes, lookupList, trailingSlash)
             == Then(ret, RoutesPatterns(reg, routes[i..], lookupList, trailingSlash))
    {
      var rest := routes[i..];
      assert rest[0] == routes[i] && rest[1..] == routes[i + 1..];
      var route := routes[i];
      var later := RoutesPatterns(reg, routes[i + 1..], lookupList, trailingSlash);
      var mapping := MethodMap(reg.viewset, route.mapping);
      if mapping == map[] {
        assert RoutesPatterns(reg, rest, lookupList, trailingSlash) == Then([], later);
        ThenEmpty(later);
        continue;
      }
      var patterns := PatternsOfLookups(reg, route, mapping, lookupList, trailingSlash);
      if patterns.Err? {
        return Err(patterns.error);
      }
      assert RoutesPatterns(reg, rest, lookupList, trailingSlash) == Then(patterns.value, later);
      ThenAssociates(ret, patterns.value, later);
      ret := ret + patterns.value;
    }
    assert ret + [] == ret;
    return Ok(ret);
  }
}
