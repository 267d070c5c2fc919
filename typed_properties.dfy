/** PHP objects with typed properties, as the entity classes use them.
    An object's initialised properties form a table from property name to
    value; a declared property that was never assigned is absent from the
    table, and reading it is an error. `__fromArray` assigns its properties
    one after another from an input array, each either from a required key
    (`$data['Id']`) or from a defaulted one (`$data['Id'] ?? ''`); an
    assignment that the property's type rejects throws, and the properties
    assigned before it stay assigned. `__toArray` reads a list of properties
    into an array, in order. */
module TypedProperties {
  import opened Failures
  import opened PhpStrings
  import opened JsonValues

  /** The declared type of a property. */
  datatype Kind = Str | Int | Bool | Arr

  /** Whether `v` is a value of type `kind` as it stands. */
  predicate HasKind(v: Json, kind: Kind) {
    match kind
    case Str => v.JString?
    case Int => v.JInt?
    case Bool => v.JBool?
    case Arr => v.IsArray()
  }

  /** Assigning `v` to a property of type `kind` without strict types: null and
      an array are rejected by a scalar type, a scalar by `array`; an int or a
      bool becomes a string as PHP prints it, a bool or an integer numeric
      string within 64 bits becomes an int, and an int or a string becomes a
      bool by PHP truthiness. */
  function Coerce(kind: Kind, v: Json, context: string): (r: Result<Json>)
    ensures r.Ok? ==> HasKind(r.value, kind)
    ensures HasKind(v, kind) ==> r == Ok(v)
    ensures r.Err? ==> r.error == TypeError(context)
    ensures kind == Arr ==> (r.Ok? <==> v.IsArray())
    ensures kind != Arr ==> (r.Ok? <==> v != JNull && !v.IsArray() && (kind == Int && v.JString? ==> NumericInt(v.s).Some?))
  {
    match kind
    case Str =>
      (match v
       case JString(_) => Ok(v)
       case JInt(n) => Ok(JString(IntToString(n)))
       case JBool(b) => Ok(JString(if b then "1" else ""))
       case _ => Err(TypeError(context)))
    case Int =>
      (match v
       case JInt(_) => Ok(v)
       case JBool(b) => Ok(JInt(if b then 1 else 0))
       case JString(s) =>
         (match NumericInt(s)
          case Some(n) => Ok(JInt(n))
          case None => Err(TypeError(context)))
       case _ => Err(TypeError(context)))
    case Bool =>
      (match v
       case JBool(_) => Ok(v)
       case JInt(n) => Ok(JBool(n != 0))
       case JString(s) => Ok(JBool(s != "" && s != "0"))
       case _ => Err(TypeError(context)))
    case Arr => if v.IsArray() then Ok(v) else Err(TypeError(context))
  }

  /** Where a property's value comes from in `__fromArray`. */
  datatype Source = Required | Defaulted(fallback: Json)

  /** One assignment of `__fromArray`: the property, its type and its source. */
  datatype Prop = Prop(name: string, kind: Kind, source: Source)

  function Names(schema: seq<Prop>): (ns: seq<string>)
    ensures |ns| == |schema| && forall i :: 0 <= i < |schema| ==> ns[i] == schema[i].name
  {
    seq(|schema|, i requires 0 <= i < |schema| => schema[i].name)
  }

  predicate Distinct(ns: seq<string>) {
    forall i, j :: 0 <= i < j < |ns| ==> ns[i] != ns[j]
  }

  /** Appending a name not yet listed keeps the names distinct. */
  lemma DistinctSnoc(ns: seq<string>, x: string)
    requires Distinct(ns) && x !in ns
    ensures Distinct(ns + [x])
  {
    assert forall i :: 0 <= i < |ns| ==> (ns + [x])[i] == ns[i];
  }

  /** Names that stay distinct with one more appended were distinct and
      lacked it. */
  lemma DistinctUnsnoc(ns: seq<string>, x: string)
    requires Distinct(ns + [x])
    ensures Distinct(ns) && x !in ns
  {
    var xs := ns + [x];
    assert forall i :: 0 <= i < |ns| ==> xs[i] == ns[i];
    assert xs[|ns|] == x;
    assert forall i :: 0 <= i < |ns| ==> xs[i] != xs[|ns|];
  }

  /** Each default is of its property's type. */
  predicate DefaultsTyped(schema: seq<Prop>) {
    forall i :: 0 <= i < |schema| && schema[i].source.Defaulted? ==> HasKind(schema[i].source.fallback, schema[i].kind)
  }

  /** A list of assignments as a class declares them: each property once, and
      each default of its property's type. */
  predicate WellDeclared(schema: seq<Prop>) {
    Distinct(Names(schema)) && DefaultsTyped(schema)
  }

  /** Every assigned property of `props` holds a value of its declared type. */
  predicate Typed(props: map<string, Json>, schema: seq<Prop>) {
    forall i :: 0 <= i < |schema| && schema[i].name in props ==> HasKind(props[schema[i].name], schema[i].kind)
  }

  /** How PHP names a property in its messages. */
  function Context(owner: string, name: string): string {
    owner + "::$" + name
  }

  /** The value the assignment `p` stores from the input array `d`. A missing
      key and a null value both read as null under a plain read and both fall
      back under `??`; null in a property without default is a TypeError. */
  function ReadProp(owner: string, d: PhpArray, p: Prop): (r: Result<Json>)
    ensures r.Ok? && (p.source.Defaulted? ==> HasKind(p.source.fallback, p.kind)) ==> HasKind(r.value, p.kind)
    ensures r.Err? ==> r.error == TypeError(Context(owner, p.name))
  {
    match Get(d, p.name)
    case None =>
      if p.source.Defaulted? then Ok(p.source.fallback) else Err(TypeError(Context(owner, p.name)))
    case Some(x) => Coerce(p.kind, x, Context(owner, p.name))
  }

  /** Every assignment of `schema` succeeds on `d`. */
  predicate Conforms(owner: string, d: PhpArray, schema: seq<Prop>) {
    forall i :: 0 <= i < |schema| ==> ReadProp(owner, d, schema[i]).Ok?
  }

  /** The object's properties after running the assignments, and the
      exception that stopped them, if any. */
  datatype Hydration = Hydration(props: map<string, Json>, failure: Option<Exception>)

  /** The assignments of `__fromArray`, one after another, stopping at the
      first one that throws. */
  function AssignAll(owner: string, props: map<string, Json>, d: PhpArray, schema: seq<Prop>): (h: Hydration)
    ensures props.Keys <= h.props.Keys
    ensures h.failure.None? ==> forall i :: 0 <= i < |schema| ==> schema[i].name in h.props
    decreases |schema|
  {
    if schema == [] then Hydration(props, None)
    else
      match ReadProp(owner, d, schema[0])
      case Err(e) => Hydration(props, Some(e))
      case Ok(v) => AssignAll(owner, props[schema[0].name := v], d, schema[1..])
  }

  /** The assignments fail exactly when one of them is rejected; the
      exception is that of the first rejected one, and the properties before
      it are assigned. */
  lemma {:induction false} AssignAllFailure(owner: string, props: map<string, Json>, d: PhpArray, schema: seq<Prop>)
    ensures AssignAll(owner, props, d, schema).failure.None? <==> Conforms(owner, d, schema)
    ensures var h := AssignAll(owner, props, d, schema);
      h.failure.Some? ==>
        exists i :: 0 <= i < |schema| && ReadProp(owner, d, schema[i]) == Err(h.failure.value)
          && Conforms(owner, d, schema[..i]) && h.props == AssignAll(owner, props, d, schema[..i]).props
    decreases |schema|
  {
    if schema != [] {
      var h := AssignAll(owner, props, d, schema);
      match ReadProp(owner, d, schema[0])
      case Err(e) =>
        assert schema[..0] == [];
        assert AssignAll(owner, props, d, schema[..0]).props == props;
      case Ok(v) =>
        var rest := schema[1..];
        AssignAllFailure(owner, props[schema[0].name := v], d, rest);
        ConformsCons(owner, d, schema);
        if h.failure.Some? {
          var i :| 0 <= i < |rest| && ReadProp(owner, d, rest[i]) == Err(h.failure.value)
            && Conforms(owner, d, rest[..i]) && h.props == AssignAll(owner, props[schema[0].name := v], d, rest[..i]).props;
          PrefixCons(owner, props, d, schema, i);
          assert rest[i] == schema[i + 1];
        }
      }
  }

  /** Input that every assignment accepts hydrates without failure. */
  lemma ConformingSucceeds(owner: string, props: map<string, Json>, d: PhpArray, schema: seq<Prop>)
    requires Conforms(owner, d, schema)
    ensures AssignAll(owner, props, d, schema).failure.None?
  {
    AssignAllFailure(owner, props, d, schema);
  }

  /** The assignments of a non-empty list succeed when the first and then
      the rest do. */
  lemma ConformsCons(owner: string, d: PhpArray, schema: seq<Prop>)
    requires schema != []
    ensures Conforms(owner, d, schema) <==> ReadProp(owner, d, schema[0]).Ok? && Conforms(owner, d, schema[1..])
  {
    assert forall i :: 0 <= i < |schema| - 1 ==> schema[1..][i] == schema[i + 1];
  }

  /** The first `i + 1` assignments are the first one followed by the first `i` of the rest. */
  lemma PrefixCons(owner: string, props: map<string, Json>, d: PhpArray, schema: seq<Prop>, i: nat)
    requires i < |schema| - 1 && ReadProp(owner, d, schema[0]).Ok?
    ensures AssignAll(owner, props, d, schema[..i + 1]).props ==
      AssignAll(owner, props[schema[0].name := ReadProp(owner, d, schema[0]).value], d, schema[1..][..i]).props
    ensures Conforms(owner, d, schema[1..][..i]) ==> Conforms(owner, d, schema[..i + 1])
  {
    var pre := schema[..i + 1];
    assert pre[0] == schema[0] && pre[1..] == schema[1..][..i];
    ConformsCons(owner, d, pre);
  }

  /** After assignments that all succeed, each declared property holds the
      value read for it, and every other property is as before. */
  lemma AssignAllValues(owner: string, props: map<string, Json>, d: PhpArray, schema: seq<Prop>)
    requires Distinct(Names(schema))
    requires Conforms(owner, d, schema)
    ensures var h := AssignAll(owner, props, d, schema);
      && (forall i :: 0 <= i < |schema| ==> schema[i].name in h.props && h.props[schema[i].name] == ReadProp(owner, d, schema[i]).value)
      && (forall k :: k !in Names(schema) ==> (k in h.props <==> k in props) && (k in props ==> h.props[k] == props[k]))
  {
    var h := AssignAll(owner, props, d, schema);
    var ns := Names(schema);
    forall i | 0 <= i < |schema|
      ensures schema[i].name in h.props && h.props[schema[i].name] == ReadProp(owner, d, schema[i]).value
    {
      assert forall j :: i < j < |schema| ==> ns[j] != ns[i];
      AssignedAt(owner, props, d, schema, i);
    }
    forall k | k !in ns
      ensures (k in h.props <==> k in props) && (k in props ==> h.props[k] == props[k])
    {
      AssignAllOthers(owner, props, d, schema, k);
    }
  }

  /** After assignments that all succeed, the `i`-th declared property holds
      the value read for it, when no later assignment writes it again. */
  lemma {:induction false} AssignedAt(owner: string, props: map<string, Json>, d: PhpArray, schema: seq<Prop>, i: nat)
    requires Conforms(owner, d, schema) && i < |schema|
    requires forall j :: i < j < |schema| ==> schema[j].name != schema[i].name
    ensures var h := AssignAll(owner, props, d, schema);
      schema[i].name in h.props && h.props[schema[i].name] == ReadProp(owner, d, schema[i]).value
    decreases |schema|
  {
    var v := ReadProp(owner, d, schema[0]).value;
    var rest := schema[1..];
    ConformsCons(owner, d, schema);
    assert forall j :: 0 <= j < |rest| ==> rest[j] == schema[j + 1];
    if i == 0 {
      assert schema[0].name !in Names(rest) by {
        forall j | 0 <= j < |rest|
          ensures Names(rest)[j] != schema[0].name
        {
          assert Names(rest)[j] == schema[j + 1].name;
        }
      }
      AssignAllOthers(owner, props[schema[0].name := v], d, rest, schema[0].name);
    } else {
      AssignedAt(owner, props[schema[0].name := v], d, rest, i - 1);
    }
  }

  /** Whatever the outcome, a property that is not declared in `schema` is
      neither assigned nor removed. */
  lemma {:induction false} AssignAllOthers(owner: string, props: map<string, Json>, d: PhpArray, schema: seq<Prop>, k: string)
    requires k !in Names(schema)
    ensures var h := AssignAll(owner, props, d, schema);
      (k in h.props <==> k in props) && (k in props ==> h.props[k] == props[k])
    decreases |schema|
  {
    if schema != [] && ReadProp(owner, d, schema[0]).Ok? {
      var rest := schema[1..];
      assert Names(schema)[0] == schema[0].name;
      assert forall i :: 0 <= i < |rest| ==> Names(rest)[i] == Names(schema)[i + 1];
      AssignAllOthers(owner, props[schema[0].name := ReadProp(owner, d, schema[0]).value], d, rest, k);
    }
  }

  /** Every assignment has a default (`$data['Id'] ?? ''`). */
  predicate AllDefaulted(schema: seq<Prop>) {
    forall i :: 0 <= i < |schema| ==> schema[i].source.Defaulted?
  }

  /** With defaults everywhere, a missing key never makes the assignments
      fail: they fail exactly when a present value is one its property's type
      rejects. */
  lemma HydrateDefaulted(owner: string, props: map<string, Json>, d: PhpArray, schema: seq<Prop>)
    requires AllDefaulted(schema)
    ensures AssignAll(owner, props, d, schema).failure.Some? <==>
      exists i :: 0 <= i < |schema| && Get(d, schema[i].name).Some?
        && Coerce(schema[i].kind, Get(d, schema[i].name).value, Context(owner, schema[i].name)).Err?
  {
    AssignAllFailure(owner, props, d, schema);
  }

  /** The value an assignment stores when its key is missing: the default,
      or null for a required key (which its type then rejects). */
  function Absent(p: Prop): Json {
    if p.source.Defaulted? then p.source.fallback else JNull
  }

  /** With defaults everywhere and none of the keys present, the assignments
      succeed and every property takes its default. */
  lemma HydrateAbsent(owner: string, props: map<string, Json>, d: PhpArray, schema: seq<Prop>)
    requires AllDefaulted(schema) && Distinct(Names(schema))
    requires forall i :: 0 <= i < |schema| ==> Get(d, schema[i].name).None?
    ensures var h := AssignAll(owner, props, d, schema);
      && h.failure.None?
      && forall i :: 0 <= i < |schema| ==> schema[i].name in h.props && h.props[schema[i].name] == Absent(schema[i])
  {
    AssignAllFailure(owner, props, d, schema);
    AssignAllValues(owner, props, d, schema);
  }

  /** Every assignment reads a required key (`$data['Id']`, no default). */
  predicate AllRequired(schema: seq<Prop>) {
    forall i :: 0 <= i < |schema| ==> schema[i].source == Required
  }

  /** With required keys only, the assignments succeed exactly when every key
      is present with a non-null value its property's type accepts; each
      property then holds the accepted value, verbatim when it already had
      the property's type. */
  lemma HydrateRequired(owner: string, props: map<string, Json>, d: PhpArray, schema: seq<Prop>)
    requires AllRequired(schema) && Distinct(Names(schema))
    ensures Conforms(owner, d, schema) <==>
      forall i :: 0 <= i < |schema| ==> (Get(d, schema[i].name).Some?
        && Coerce(schema[i].kind, Get(d, schema[i].name).value, Context(owner, schema[i].name)).Ok?)
    ensures var h := AssignAll(owner, props, d, schema);
      Conforms(owner, d, schema) ==>
        forall i :: 0 <= i < |schema| ==>
          && schema[i].name in h.props
          && h.props[schema[i].name] == Coerce(schema[i].kind, Get(d, schema[i].name).value, Context(owner, schema[i].name)).value
          && (HasKind(Get(d, schema[i].name).value, schema[i].kind) ==> h.props[schema[i].name] == Get(d, schema[i].name).value)
  {
    if Conforms(owner, d, schema) {
      AssignAllValues(owner, props, d, schema);
    }
  }

  /** Assignments keep every property at its declared type. */
  lemma {:induction false} AssignAllTyped(owner: string, props: map<string, Json>, d: PhpArray, decl: seq<Prop>, m: nat)
    requires WellDeclared(decl) && m <= |decl|
    requires Typed(props, decl)
    ensures Typed(AssignAll(owner, props, d, decl[m..]).props, decl)
    decreases |decl| - m
  {
    if m < |decl| {
      var rest := decl[m..];
      assert rest[0] == decl[m] && rest[1..] == decl[m + 1..];
      var r := ReadProp(owner, d, decl[m]);
      if r.Ok? {
        var ns := Names(decl);
        var next := props[decl[m].name := r.value];
        forall i | 0 <= i < |decl| && decl[i].name in next
          ensures HasKind(next[decl[i].name], decl[i].kind)
        {
          if decl[i].name == decl[m].name {
            assert ns[i] == ns[m];
            assert i == m;
          }
        }
        AssignAllTyped(owner, next, d, decl, m + 1);
      }
    }
  }

  /** The members of `__toArray` over `names`, in order; reading a property
      that was never assigned is an error naming the first such property. */
  function ExportProps(owner: string, props: map<string, Json>, names: seq<string>): (r: Result<seq<(string, Json)>>)
    ensures r.Ok? <==> forall i :: 0 <= i < |names| ==> names[i] in props
    ensures r.Ok? ==> |r.value| == |names| && forall i :: 0 <= i < |names| ==> r.value[i] == (names[i], props[names[i]])
    ensures r.Err? ==>
      exists i :: 0 <= i < |names| && names[i] !in props && r.error == Uninitialized(Context(owner, names[i]))
        && forall j :: 0 <= j < i ==> names[j] in props
  {
    if names == [] then Ok([])
    else if names[0] !in props then Err(Uninitialized(Context(owner, names[0])))
    else
      var rest := ExportProps(owner, props, names[1..]);
      assert forall i :: 1 <= i < |names| ==> names[i] == names[1..][i - 1];
      if rest.Err? then
        assert (exists i :: 1 <= i < |names| && names[i] !in props && rest.error == Uninitialized(Context(owner, names[i]))
                  && (forall j :: 0 <= j < i ==> names[j] in props)) by {
          var i :| (0 <= i < |names| - 1 && names[1..][i] !in props && rest.error == Uninitialized(Context(owner, names[1..][i]))
            && forall j :: 0 <= j < i ==> names[1..][j] in props);
          assert names[i + 1] == names[1..][i];
          assert forall j :: 1 <= j < i + 1 ==> names[j] == names[1..][j - 1];
        }
        Err(rest.error)
      else
        Ok([(names[0], props[names[0]])] + rest.value)
  }

  /** Exporting an object and hydrating from the export: every exported
      property comes back unchanged and every other one takes its default. */
  lemma HydrateExported(owner: string, props: map<string, Json>, target: map<string, Json>, schema: seq<Prop>, names: seq<string>)
    requires WellDeclared(schema) && Distinct(names)
    requires forall j :: 0 <= j < |names| ==> names[j] in props
    requires Typed(props, schema)
    requires forall i :: 0 <= i < |schema| && schema[i].name !in names ==> schema[i].source.Defaulted?
    ensures ExportProps(owner, props, names).Ok?
    ensures var h := AssignAll(owner, target, JObject(ExportProps(owner, props, names).value), schema);
      && h.failure.None?
      && forall i :: 0 <= i < |schema| ==>
           schema[i].name in h.props && h.props[schema[i].name] == if schema[i].name in names then props[schema[i].name] else schema[i].source.fallback
  {
    var ms := ExportProps(owner, props, names).value;
    var d: PhpArray := JObject(ms);
    forall i | 0 <= i < |schema|
      ensures ReadProp(owner, d, schema[i]) == Ok(if schema[i].name in names then props[schema[i].name] else schema[i].source.fallback)
    {
      var n := schema[i].name;
      if n in names {
        var j :| 0 <= j < |names| && names[j] == n;
        assert forall l :: 0 <= l < j ==> ms[l].0 != ms[j].0;
        LookupAt(ms, j);
        assert HasKind(props[n], schema[i].kind);
      } else {
        assert forall j :: 0 <= j < |ms| ==> ms[j].0 != n;
      }
    }
    AssignAllFailure(owner, target, d, schema);
    AssignAllValues(owner, target, d, schema);
  }

  /** Exporting every declared property and hydrating from the export
      brings each one back unchanged. */
  lemma HydrateExportedAll(owner: string, props: map<string, Json>, target: map<string, Json>, schema: seq<Prop>)
    requires WellDeclared(schema) && Typed(props, schema)
    requires forall i :: 0 <= i < |schema| ==> schema[i].name in props
    ensures ExportProps(owner, props, Names(schema)).Ok?
    ensures var h := AssignAll(owner, target, JObject(ExportProps(owner, props, Names(schema)).value), schema);
      && h.failure.None?
      && forall i :: 0 <= i < |schema| ==> schema[i].name in h.props && h.props[schema[i].name] == props[schema[i].name]
  {
    HydrateExported(owner, props, target, schema, Names(schema));
  }

  /** Exporting every declared property but the last and hydrating from the
      export: the exported ones come back unchanged and the last, which has a
      default, takes it. */
  lemma HydrateExportedButLast(owner: string, props: map<string, Json>, target: map<string, Json>, schema: seq<Prop>, names: seq<string>)
    requires WellDeclared(schema) && Typed(props, schema)
    requires |schema| > 0 && names + [schema[|schema| - 1].name] == Names(schema)
    requires schema[|schema| - 1].source.Defaulted?
    requires forall j :: 0 <= j < |names| ==> names[j] in props
    ensures ExportProps(owner, props, names).Ok?
    ensures var h := AssignAll(owner, target, JObject(ExportProps(owner, props, names).value), schema);
      && h.failure.None?
      && (forall i :: 0 <= i < |names| ==> schema[i].name in h.props && h.props[schema[i].name] == props[schema[i].name])
      && schema[|names|].name in h.props && h.props[schema[|names|].name] == schema[|names|].source.fallback
  {
    var last := |names|;
    assert forall i :: 0 <= i < last ==> names[i] == Names(schema)[i];
    assert schema[last].name == Names(schema)[last];
    assert schema[last].name !in names;
    HydrateExported(owner, props, target, schema, names);
  }

  /** Exporting right after a successful hydration: each exported property,
      the `idx[j]`-th of the declarations, holds the value read for it. */
  lemma ExportHydrated(owner: string, props: map<string, Json>, d: PhpArray, schema: seq<Prop>, names: seq<string>, idx: seq<nat>)
    requires Distinct(Names(schema)) && Conforms(owner, d, schema)
    requires |idx| == |names| && forall j :: 0 <= j < |names| ==> idx[j] < |schema| && names[j] == schema[idx[j]].name
    ensures var r := ExportProps(owner, AssignAll(owner, props, d, schema).props, names);
      && r.Ok? && |r.value| == |names|
      && forall j :: 0 <= j < |names| ==> r.value[j] == (names[j], ReadProp(owner, d, schema[idx[j]]).value)
  {
    AssignAllValues(owner, props, d, schema);
  }

  /** Exporting the first `n` declared properties right after a successful
      hydration: the values read for them, in order. */
  lemma ExportPrefixAssigned(owner: string, props: map<string, Json>, d: PhpArray, schema: seq<Prop>, n: nat)
    requires Distinct(Names(schema)) && Conforms(owner, d, schema) && n <= |schema|
    ensures var r := ExportProps(owner, AssignAll(owner, props, d, schema).props, Names(schema)[..n]);
      && r.Ok? && |r.value| == n
      && (forall i :: 0 <= i < n ==> r.value[i] == (schema[i].name, ReadProp(owner, d, schema[i]).value))
  {
    ExportHydrated(owner, props, d, schema, Names(schema)[..n], seq(n, i => i));
  }

  /** The front of a sequence extended by one element. */
  lemma PrefixOfSnoc(a: seq<string>, x: string, b: seq<string>)
    requires a + [x] == b
    ensures a == b[..|a|]
  {
  }

  /** Exporting one more property after `names`: the members of `names`
      followed by that property, or the first error. */
  lemma {:induction false} ExportPropsSnoc(owner: string, props: map<string, Json>, names: seq<string>, x: string)
    ensures ExportProps(owner, props, names + [x]) ==
      if ExportProps(owner, props, names).Err? then ExportProps(owner, props, names)
      else if x !in props then Err(Uninitialized(Context(owner, x)))
      else Ok(ExportProps(owner, props, names).value + [(x, props[x])])
    decreases |names|
  {
    if names == [] {
      assert names + [x] == [x];
      assert ([x])[1..] == [];
      if x in props {
        var m: seq<(string, Json)> := [(x, props[x])];
        assert ExportProps(owner, props, []) == Ok([]);
        assert ExportProps(owner, props, [x]) == Ok(m + []);
        assert [] + m == m + [];
      }
    } else {
      assert (names + [x])[0] == names[0];
      assert (names + [x])[1..] == names[1..] + [x];
      ExportPropsSnoc(owner, props, names[1..], x);
      var rest := ExportProps(owner, props, names[1..]);
      if names[0] !in props {
        assert ExportProps(owner, props, names + [x]) == Err(Uninitialized(Context(owner, names[0])));
      } else if rest.Err? {
        assert ExportProps(owner, props, names + [x]) == Err(rest.error);
      } else if x !in props {
        assert ExportProps(owner, props, names + [x]) == Err(Uninitialized(Context(owner, x)));
      } else {
        var head := [(names[0], props[names[0]])];
        assert head + (rest.value + [(x, props[x])]) == (head + rest.value) + [(x, props[x])];
      }
    }
  }

  /** Exporting the hydrated properties after a successful hydration: the
      values read, in order. */
  lemma ExportAllAssigned(owner: string, props: map<string, Json>, d: PhpArray, schema: seq<Prop>)
    requires Distinct(Names(schema)) && Conforms(owner, d, schema)
    ensures var r := ExportProps(owner, AssignAll(owner, props, d, schema).props, Names(schema));
      && r.Ok? && |r.value| == |schema|
      && (forall i :: 0 <= i < |schema| ==> r.value[i] == (schema[i].name, ReadProp(owner, d, schema[i]).value))
  {
    AssignAllValues(owner, props, d, schema);
  }

  /** Exporting the hydrated properties after a successful hydration, then
      one property `x` the assignments do not touch: the values read, in
      order, then `x` as it was before, or the error of reading it unset. */
  lemma ExportAfterAssignAll(owner: string, props: map<string, Json>, d: PhpArray, schema: seq<Prop>, x: string)
    requires Distinct(Names(schema)) && Conforms(owner, d, schema) && x !in Names(schema)
    ensures var h := AssignAll(owner, props, d, schema);
      var r := ExportProps(owner, h.props, Names(schema));
      && r.Ok? && |r.value| == |schema|
      && (forall i :: 0 <= i < |schema| ==> r.value[i] == (schema[i].name, ReadProp(owner, d, schema[i]).value))
      && ExportProps(owner, h.props, Names(schema) + [x]) ==
           if x in props then Ok(r.value + [(x, props[x])]) else Err(Uninitialized(Context(owner, x)))
  {
    var h := AssignAll(owner, props, d, schema);
    AssignAllValues(owner, props, d, schema);
    ExportPropsSnoc(owner, h.props, Names(schema), x);
  }
}
