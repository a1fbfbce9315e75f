/** The frame-type generator: JSON Schema to TypeScript, as a translation between two languages
    of types over one set of JSON values. The text it prints is in WireText. */
module WireTypes {
  import opened Common
  import opened JsonValue

  // ---------------------------------------------------------------- the source language

  /** The value of `type`: one name, or a list of names. */
  datatype TypeName = One(name: string) | Several(names: seq<string>)

  datatype Additional = NoAdditional | Allowed(yes: bool) | Constrained(schema: Schema)

  datatype Property = Property(name: string, schema: Schema)

  datatype Properties = NoProperties | Properties(list: seq<Property>)

  datatype Parts = NoParts | Parts(list: seq<Schema>)

  /** A schema object: the keywords the generator reads, the patterns of `patternProperties`,
      and the names of every other keyword. */
  datatype Schema = Schema(
    ref: Option<string>,
    constant: Option<Json>,
    enumeration: Option<seq<Json>>,
    anyOf: Parts,
    oneOf: Parts,
    kind: Option<TypeName>,
    items: Option<Schema>,
    properties: Properties,
    additional: Additional,
    patterns: seq<string>,
    others: seq<string>)

  const EMPTY := Schema(None, None, None, NoParts, NoParts, None, None, NoProperties, NoAdditional, [], [])

  function AfterLastSlash(s: string): string {
    if '/' !in s then s else AfterLastSlash(s[1..])
  }

  /** What a schema is read against: the definitions, what an exhausted chain of references counts
      as, which names a pattern matches, and what the keywords the generator ignores demand. */
  datatype Reading = Reading(
    defs: map<string, Schema>,
    exhausted: bool,
    matches: (string, string) -> bool,
    demands: (seq<string>, Json) -> bool)

  predicate HasType(v: Json, name: string) {
    match v
    case JNull => name == "null"
    case JBool(_) => name == "boolean"
    case JNum(n) => name == "number" || (name == "integer" && n == n.Floor as real)
    case JStr(_) => name == "string"
    case JArr(_) => name == "array"
    case JObj(_) => name == "object"
  }

  ghost predicate Declares(s: Schema, name: string) {
    s.properties.Properties? && exists p <- s.properties.list :: p.name == name
  }

  /** Validation of a value by a schema: every keyword must hold. References are followed
      `fuel` times. */
  ghost predicate Accepts(r: Reading, fuel: nat, v: Json, s: Schema)
    decreases fuel, s
  {
    && (s.ref.Some? ==>
          AfterLastSlash(s.ref.value) in r.defs &&
          if fuel == 0 then r.exhausted
          else Accepts(r, fuel - 1, v, r.defs[AfterLastSlash(s.ref.value)]))
    && (s.constant.Some? ==> v == s.constant.value)
    && (s.enumeration.Some? ==> v in s.enumeration.value)
    && (s.anyOf.Parts? ==> exists part <- s.anyOf.list :: Accepts(r, fuel, v, part))
    && (s.oneOf.Parts? ==>
          exists i :: 0 <= i < |s.oneOf.list| && Accepts(r, fuel, v, s.oneOf.list[i]) &&
            forall j :: 0 <= j < |s.oneOf.list| && j != i ==> !Accepts(r, fuel, v, s.oneOf.list[j]))
    && (s.kind.Some? ==>
          match s.kind.value
          case One(name) => HasType(v, name)
          case Several(names) => exists name <- names :: HasType(v, name))
    && (s.items.Some? && v.JArr? ==> forall x <- v.items :: Accepts(r, fuel, x, s.items.value))
    && (s.properties.Properties? && v.JObj? ==>
          forall p <- s.properties.list :: p.name in v.fields ==> Accepts(r, fuel, v.fields[p.name], p.schema))
    && (v.JObj? ==> forall k <- v.fields ::
          !Declares(s, k) && !Escapes(r, s, k) ==>
            match s.additional
            case NoAdditional => true
            case Allowed(yes) => yes
            case Constrained(a) => Accepts(r, fuel, v.fields[k], a))
    && (s.others != [] ==> r.demands(s.others, v))
  }

  /** A property that a pattern of the schema names. */
  ghost predicate Escapes(r: Reading, s: Schema, name: string) {
    exists p <- s.patterns :: r.matches(p, name)
  }

  /** The value carries the declared properties, as far down as the schema is printed; of the
      branches of a union, along one that accepts it. */
  ghost predicate Complete(r: Reading, fuel: nat, v: Json, s: Schema)
    decreases fuel, s
  {
    if s.ref.Some? then
      fuel > 0 && AfterLastSlash(s.ref.value) in r.defs ==>
        Complete(r, fuel - 1, v, r.defs[AfterLastSlash(s.ref.value)])
    else if s.constant.Some? || s.enumeration.Some? then true
    else if s.anyOf.Parts? then exists part <- s.anyOf.list :: Accepts(r, fuel, v, part) && Complete(r, fuel, v, part)
    else if s.oneOf.Parts? then exists part <- s.oneOf.list :: Accepts(r, fuel, v, part) && Complete(r, fuel, v, part)
    else if s.kind == Some(One("array")) then
      s.items.Some? && v.JArr? ==> forall x <- v.items :: Complete(r, fuel, x, s.items.value)
    else if s.kind == Some(One("object")) && v.JObj? then
      if s.properties.Properties? then
        forall p <- s.properties.list :: p.name in v.fields && Complete(r, fuel, v.fields[p.name], p.schema)
      else if s.additional.Constrained? then
        forall k <- v.fields :: !Escapes(r, s, k) ==> Complete(r, fuel, v.fields[k], s.additional.schema)
      else true
    else true
  }

  /** A value that is accepted and carries what is declared. */
  ghost predicate Fits(r: Reading, fuel: nat, v: Json, s: Schema) { Accepts(r, fuel, v, s) && Complete(r, fuel, v, s) }

  // ---------------------------------------------------------------- the target language

  datatype Field = Field(name: string, ty: Ty)

  datatype Ty =
    | Named(name: string)
    | Literal(value: Json)
    | Union(parts: seq<Ty>)
    | Array(element: Ty)
    | Object(fields: seq<Field>)
    | Record(values: Ty)
    | String | Number | Boolean | Null | Unknown

  /** Membership of a value in a type, structurally, with the generated aliases unfolded
      `fuel` times. */
  ghost predicate Inhabits(r: Reading, fuel: nat, v: Json, t: Ty)
    decreases fuel, t
  {
    match t
    case Named(name) =>
      name in r.defs && if fuel == 0 then r.exhausted else Inhabits(r, fuel - 1, v, TypeOf(r.defs[name]))
    case Literal(c) => v == c
    case Union(parts) => exists part <- parts :: Inhabits(r, fuel, v, part)
    case Array(e) => v.JArr? && forall x <- v.items :: Inhabits(r, fuel, x, e)
    case Object(fields) =>
      v.JObj? && forall f <- fields :: f.name in v.fields && Inhabits(r, fuel, v.fields[f.name], f.ty)
    case Record(e) => v.JObj? && forall k <- v.fields :: Inhabits(r, fuel, v.fields[k], e)
    case String => v.JStr?
    case Number => v.JNum?
    case Boolean => v.JBool?
    case Null => v.JNull?
    case Unknown => true
  }

  // ---------------------------------------------------------------- the translation

  function TypesOf(parts: seq<Schema>): (ts: seq<Ty>)
    ensures |ts| == |parts| && forall i :: 0 <= i < |parts| ==> ts[i] == TypeOf(parts[i])
  {
    if parts == [] then [] else [TypeOf(parts[0])] + TypesOf(parts[1..])
  }

  function FieldsOf(ps: seq<Property>): (fs: seq<Field>)
    ensures |fs| == |ps| && forall i :: 0 <= i < |ps| ==> fs[i] == Field(ps[i].name, TypeOf(ps[i].schema))
  {
    if ps == [] then [] else [Field(ps[0].name, TypeOf(ps[0].schema))] + FieldsOf(ps[1..])
  }

  function TypeOf(s: Schema): Ty {
    if s.ref.Some? then Named(AfterLastSlash(s.ref.value))
    else if s.constant.Some? then Literal(s.constant.value)
    else if s.enumeration.Some? then Union(Map((c: Json) => Literal(c), s.enumeration.value))
    else if s.anyOf.Parts? then Union(TypesOf(s.anyOf.list))
    else if s.oneOf.Parts? then Union(TypesOf(s.oneOf.list))
    else if s.kind == Some(One("array")) then
      Array(if s.items.Some? then TypeOf(s.items.value) else Unknown)
    else if s.kind == Some(One("object")) then
      if s.properties.Properties? then Object(FieldsOf(s.properties.list))
      else Record(match s.additional
                  case NoAdditional => Unknown
                  case Allowed(_) => Unknown
                  case Constrained(a) => TypeOf(a))
    else if s.kind == Some(One("string")) then String
    else if s.kind == Some(One("integer")) || s.kind == Some(One("number")) then Number
    else if s.kind == Some(One("boolean")) then Boolean
    else if s.kind == Some(One("null")) then Null
    else Unknown
  }

  /** The schema is printed as a record of a constrained type. */
  predicate IsRecord(s: Schema) {
    && s.ref.None? && s.constant.None? && s.enumeration.None? && s.anyOf.NoParts? && s.oneOf.NoParts?
    && s.kind == Some(One("object")) && s.properties.NoProperties? && s.additional.Constrained?
  }

  /** No such record, here or below, also has `patternProperties`. */
  predicate PatternFree(s: Schema) {
    && (IsRecord(s) ==> s.patterns == [] && PatternFree(s.additional.schema))
    && (s.anyOf.Parts? ==> forall part <- s.anyOf.list :: PatternFree(part))
    && (s.oneOf.Parts? ==> forall part <- s.oneOf.list :: PatternFree(part))
    && (s.items.Some? ==> PatternFree(s.items.value))
    && (s.properties.Properties? ==> forall p <- s.properties.list :: PatternFree(p.schema))
  }

  ghost predicate AllPatternFree(defs: map<string, Schema>) {
    forall name <- defs :: PatternFree(defs[name])
  }

  /** Through references followed fewer than `fuel` times, whatever fits a definition of `r`
      inhabits the alias that `m` prints under its name. */
  ghost predicate NamesAreSound(r: Reading, m: Reading, fuel: nat) {
    forall name: string, g: nat, v: Json ::
      '/' !in name && name in r.defs && g < fuel && Fits(r, g, v, r.defs[name]) ==>
        name in m.defs && Inhabits(m, g, v, TypeOf(m.defs[name]))
  }

  /** Names keep their place in the printed file, and an endless chain of references counts alike. */
  ghost predicate Prints(r: Reading, m: Reading) {
    m.exhausted == r.exhausted && forall name <- r.defs :: name in m.defs
  }

  lemma {:induction false} ReferenceHasNoSlash(path: string)
    ensures '/' !in AfterLastSlash(path)
    decreases |path|
  {
    if '/' in path {
      ReferenceHasNoSlash(path[1..]);
    }
  }

  ghost predicate IsWhole(v: Json, k: int) { v == JNum(k as real) }

  /** What the names of types mean: exactly the whole numbers are integers, and every other name is
      that of one kind of value. */
  lemma {:induction false} TypeNamesMean(r: Reading, fuel: nat, v: Json, name: string)
    ensures Accepts(r, fuel, v, EMPTY.(kind := Some(One(name)), additional := Allowed(true))) <==>
              || (name == "null" && v.JNull?) || (name == "boolean" && v.JBool?) || (name == "string" && v.JStr?)
              || (name == "array" && v.JArr?) || (name == "object" && v.JObj?) || (name == "number" && v.JNum?)
              || (name == "integer" && exists k :: IsWhole(v, k))
  {
    if v.JNum? && v.n == v.n.Floor as real {
      assert IsWhole(v, v.n.Floor);
    }
  }

  /** A reference names its last segment: whatever path leads there, the definition's own name. */
  lemma {:induction false} ReferenceIsLastSegment(path: string, name: string)
    requires '/' !in name
    ensures AfterLastSlash(path + "/" + name) == name
    decreases |path|
  {
    var s := path + "/" + name;
    if path == [] {
      assert s[1..] == name;
    } else {
      assert s[1..] == path[1..] + "/" + name;
      ReferenceIsLastSegment(path[1..], name);
    }
    assert s[|path|] == '/';
  }

  /** So a reference to a definition is the alias of that definition, and has its members. */
  lemma {:induction false} ReferenceIsItsDefinition(r: Reading, fuel: nat, v: Json, path: string, name: string)
    requires '/' !in name && name in r.defs
    ensures var s := EMPTY.(ref := Some(path + "/" + name));
            && TypeOf(s) == Named(name)
            && (Accepts(r, fuel + 1, v, s) <==> Accepts(r, fuel, v, r.defs[name]))
            && (Inhabits(r, fuel + 1, v, TypeOf(s)) <==> Inhabits(r, fuel, v, TypeOf(r.defs[name])))
  {
    ReferenceIsLastSegment(path, name);
  }

  /** A type is sound where the names in it are. */
  lemma {:induction false} SoundWhereNamesAre(r: Reading, m: Reading, fuel: nat, v: Json, s: Schema)
    requires Prints(r, m) && PatternFree(s) && NamesAreSound(r, m, fuel)
    requires Fits(r, fuel, v, s)
    ensures Inhabits(m, fuel, v, TypeOf(s))
    decreases s, 1
  {
    if s.ref.Some? {
      ReferenceHasNoSlash(s.ref.value);
    } else if s.constant.Some? {
    } else if s.enumeration.Some? {
      EnumerationIsSound(m, fuel, v, s.enumeration.value);
    } else if s.anyOf.Parts? {
      var i :| 0 <= i < |s.anyOf.list| && Fits(r, fuel, v, s.anyOf.list[i]);
      SoundWhereNamesAre(r, m, fuel, v, s.anyOf.list[i]);
      PartInhabitsUnion(m, fuel, v, s.anyOf.list, i);
    } else if s.oneOf.Parts? {
      var i :| 0 <= i < |s.oneOf.list| && Fits(r, fuel, v, s.oneOf.list[i]);
      SoundWhereNamesAre(r, m, fuel, v, s.oneOf.list[i]);
      PartInhabitsUnion(m, fuel, v, s.oneOf.list, i);
    } else if s.kind == Some(One("array")) {
      ArrayIsSound(r, m, fuel, v, s);
    } else if s.kind == Some(One("object")) {
      ObjectIsSound(r, m, fuel, v, s);
    }
  }

  /** The generated type is sound: a value the schema accepts, that carries the declared properties
      along branches that accept it, inhabits the type, whatever the ignored keywords demand, through
      any number of unfoldings of recursive references, and whether an endless chain of references
      counts as acceptance or not. */
  lemma {:induction false} TypeIsSound(r: Reading, fuel: nat, v: Json, s: Schema)
    requires PatternFree(s) && AllPatternFree(r.defs)
    requires Fits(r, fuel, v, s)
    ensures Inhabits(r, fuel, v, TypeOf(s))
    decreases fuel
  {
    forall name: string, g: nat, w: Json | name in r.defs && g < fuel && Fits(r, g, w, r.defs[name])
      ensures Inhabits(r, g, w, TypeOf(r.defs[name]))
    {
      TypeIsSound(r, g, w, r.defs[name]);
    }
    SoundWhereNamesAre(r, r, fuel, v, s);
  }

  lemma {:induction false} EnumerationIsSound(r: Reading, fuel: nat, v: Json, cs: seq<Json>)
    ensures v in cs <==> Inhabits(r, fuel, v, Union(Map((c: Json) => Literal(c), cs)))
  {
    var parts := Map((c: Json) => Literal(c), cs);
    if v in cs {
      var i :| 0 <= i < |cs| && cs[i] == v;
      assert parts[i] == Literal(v) && Inhabits(r, fuel, v, parts[i]);
    }
  }

  lemma {:induction false} PartInhabitsUnion(r: Reading, fuel: nat, v: Json, parts: seq<Schema>, i: nat)
    requires i < |parts| && Inhabits(r, fuel, v, TypeOf(parts[i]))
    ensures Inhabits(r, fuel, v, Union(TypesOf(parts)))
  {
    assert TypesOf(parts)[i] == TypeOf(parts[i]);
  }

  lemma {:induction false} ArrayIsSound(r: Reading, m: Reading, fuel: nat, v: Json, s: Schema)
    requires Prints(r, m) && PatternFree(s) && NamesAreSound(r, m, fuel)
    requires Fits(r, fuel, v, s)
    requires s.ref.None? && s.constant.None? && s.enumeration.None? && s.anyOf.NoParts? && s.oneOf.NoParts?
    requires s.kind == Some(One("array"))
    ensures Inhabits(m, fuel, v, TypeOf(s))
    decreases s, 0
  {
    if s.items.Some? {
      forall x <- v.items ensures Inhabits(m, fuel, x, TypeOf(s.items.value)) {
        SoundWhereNamesAre(r, m, fuel, x, s.items.value);
      }
    }
  }

  lemma {:induction false} ObjectIsSound(r: Reading, m: Reading, fuel: nat, v: Json, s: Schema)
    requires Prints(r, m) && PatternFree(s) && NamesAreSound(r, m, fuel)
    requires Fits(r, fuel, v, s)
    requires s.ref.None? && s.constant.None? && s.enumeration.None? && s.anyOf.NoParts? && s.oneOf.NoParts?
    requires s.kind == Some(One("object"))
    ensures Inhabits(m, fuel, v, TypeOf(s))
    decreases s, 0
  {
    if s.properties.Properties? {
      var ps, fs := s.properties.list, FieldsOf(s.properties.list);
      forall f <- fs ensures f.name in v.fields && Inhabits(m, fuel, v.fields[f.name], f.ty) {
        var i :| 0 <= i < |fs| && fs[i] == f;
        assert ps[i] in ps;
        SoundWhereNamesAre(r, m, fuel, v.fields[f.name], ps[i].schema);
      }
    } else if s.additional.Constrained? {
      forall k <- v.fields ensures Inhabits(m, fuel, v.fields[k], TypeOf(s.additional.schema)) {
        SoundWhereNamesAre(r, m, fuel, v.fields[k], s.additional.schema);
      }
    }
  }

  /** Both premises are needed. A declared property that is left out is accepted by the schema
      and refused by the type, */
  lemma {:induction false} MissingPropertyIsLost(r: Reading, fuel: nat)
    ensures var s := EMPTY.(kind := Some(One("object")), properties := Properties([Property("a", EMPTY)]));
            Accepts(r, fuel, JObj(map[]), s) && !Inhabits(r, fuel, JObj(map[]), TypeOf(s))
  {
    var s := EMPTY.(kind := Some(One("object")), properties := Properties([Property("a", EMPTY)]));
    var fs := FieldsOf(s.properties.list);
    assert fs[0] in fs;
  }

  /** A value that fits a record's schema inhabits the record exactly if what it has under the
      names that escape does. */
  lemma {:induction false} RecordIsSoundIff(r: Reading, fuel: nat, v: Json, s: Schema)
    requires IsRecord(s) && PatternFree(s.additional.schema) && AllPatternFree(r.defs)
    requires Fits(r, fuel, v, s)
    ensures Inhabits(r, fuel, v, TypeOf(s)) <==>
              forall k <- v.fields :: Escapes(r, s, k) ==> Inhabits(r, fuel, v.fields[k], TypeOf(s.additional.schema))
  {
    forall k <- v.fields | !Escapes(r, s, k) ensures Inhabits(r, fuel, v.fields[k], TypeOf(s.additional.schema)) {
      TypeIsSound(r, fuel, v.fields[k], s.additional.schema);
    }
  }

  /** So such a record is unsound whenever one of its patterns matches some name and some value is
      outside the record's type: that value under that name. */
  lemma {:induction false} PatternedRecordIsUnsound(r: Reading, fuel: nat, s: Schema, name: string, x: Json)
    requires IsRecord(s) && s.others == []
    requires Escapes(r, s, name) && !Inhabits(r, fuel, x, TypeOf(s.additional.schema))
    ensures Fits(r, fuel, JObj(map[name := x]), s) && !Inhabits(r, fuel, JObj(map[name := x]), TypeOf(s))
  {
    var v := JObj(map[name := x]);
    assert v.fields[name] == x;
  }

  /** and is sound otherwise. */
  lemma {:induction false} PatternedRecordIsUnsoundIff(r: Reading, fuel: nat, s: Schema)
    requires IsRecord(s) && s.others == [] && PatternFree(s.additional.schema) && AllPatternFree(r.defs)
    ensures (exists v :: Fits(r, fuel, v, s) && !Inhabits(r, fuel, v, TypeOf(s))) <==>
              exists name, x :: Escapes(r, s, name) && !Inhabits(r, fuel, x, TypeOf(s.additional.schema))
  {
    if name, x :| Escapes(r, s, name) && !Inhabits(r, fuel, x, TypeOf(s.additional.schema)) {
      PatternedRecordIsUnsound(r, fuel, s, name, x);
    }
    if v :| Fits(r, fuel, v, s) && !Inhabits(r, fuel, v, TypeOf(s)) {
      RecordIsSoundIff(r, fuel, v, s);
    }
  }

  // ---------------------------------------------------------------- one file for two sides

  /** The definitions of both sides are printed once; for a shared name the client's wins. */
  function Definitions(server: map<string, Schema>, client: map<string, Schema>): map<string, Schema> {
    server + client
  }

  function Merged(r: Reading, client: map<string, Schema>): Reading {
    r.(defs := Definitions(r.defs, client))
  }

  lemma {:induction false} MoreAliasesKeepMembers(r: Reading, defs: map<string, Schema>, fuel: nat, v: Json, t: Ty)
    requires forall name <- r.defs :: name in defs && defs[name] == r.defs[name]
    requires Inhabits(r, fuel, v, t)
    ensures Inhabits(r.(defs := defs), fuel, v, t)
    decreases fuel, t
  {
    var more := r.(defs := defs);
    if t.Named? {
      if fuel > 0 {
        MoreAliasesKeepMembers(r, defs, fuel - 1, v, TypeOf(r.defs[t.name]));
      }
    } else if t.Union? {
      var part :| part in t.parts && Inhabits(r, fuel, v, part);
      MoreAliasesKeepMembers(r, defs, fuel, v, part);
    } else if t.Array? {
      forall x <- v.items ensures Inhabits(more, fuel, x, t.element) {
        MoreAliasesKeepMembers(r, defs, fuel, x, t.element);
      }
    } else if t.Object? {
      forall f <- t.fields ensures Inhabits(more, fuel, v.fields[f.name], f.ty) {
        MoreAliasesKeepMembers(r, defs, fuel, v.fields[f.name], f.ty);
      }
    } else if t.Record? {
      forall k <- v.fields ensures Inhabits(more, fuel, v.fields[k], t.values) {
        MoreAliasesKeepMembers(r, defs, fuel, v.fields[k], t.values);
      }
    }
  }

  /** A frame that is valid on the server inhabits the printed type next to the printed
      definitions, as long as the two sides do not use one name for two schemas. */
  lemma {:induction false} ServerFrameIsSound(r: Reading, client: map<string, Schema>, fuel: nat, v: Json, s: Schema)
    requires PatternFree(s) && AllPatternFree(r.defs)
    requires forall name <- r.defs :: name in client ==> client[name] == r.defs[name]
    requires Fits(r, fuel, v, s)
    ensures Inhabits(Merged(r, client), fuel, v, TypeOf(s))
  {
    TypeIsSound(r, fuel, v, s);
    MoreAliasesKeepMembers(r, Definitions(r.defs, client), fuel, v, TypeOf(s));
  }

  /** Every frame that is valid on the server inhabits its printed type. */
  ghost predicate FileIsSound(r: Reading, m: Reading) {
    forall fuel: nat, v, s :: PatternFree(s) && Fits(r, fuel, v, s) ==> Inhabits(m, fuel, v, TypeOf(s))
  }

  /** What fits the server's definition of a shared name inhabits the client's type of that name. */
  ghost predicate SharedNamesAreSound(r: Reading, client: map<string, Schema>) {
    forall name: string, fuel: nat, v: Json ::
      '/' !in name && name in r.defs && name in client && Fits(r, fuel, v, r.defs[name]) ==>
        Inhabits(Merged(r, client), fuel, v, TypeOf(client[name]))
  }

  lemma {:induction false} SharedNamesAreEnough(r: Reading, client: map<string, Schema>, fuel: nat, v: Json, s: Schema)
    requires PatternFree(s) && AllPatternFree(r.defs) && SharedNamesAreSound(r, client)
    requires Fits(r, fuel, v, s)
    ensures Inhabits(Merged(r, client), fuel, v, TypeOf(s))
    decreases fuel
  {
    var m := Merged(r, client);
    forall name: string, g: nat, w: Json | '/' !in name && name in r.defs && g < fuel && Fits(r, g, w, r.defs[name])
      ensures name in m.defs && Inhabits(m, g, w, TypeOf(m.defs[name]))
    {
      if name !in client {
        SharedNamesAreEnough(r, client, g, w, r.defs[name]);
      }
    }
    SoundWhereNamesAre(r, m, fuel, v, s);
  }

  /** A shared name breaks that exactly as far as the two definitions differ: a value that fits
      the server's definition and the client's type refuses makes a reference unsound, */
  lemma {:induction false} SharedNameIsUnsound(r: Reading, client: map<string, Schema>, fuel: nat, v: Json,
                                               name: string)
    requires '/' !in name && name in r.defs && name in client
    requires Fits(r, fuel, v, r.defs[name]) && !Inhabits(Merged(r, client), fuel, v, TypeOf(client[name]))
    ensures var s := EMPTY.(ref := Some(name));
            PatternFree(s) && Fits(r, fuel + 1, v, s) && !Inhabits(Merged(r, client), fuel + 1, v, TypeOf(s))
  {
    assert AfterLastSlash(name) == name;
  }

  /** and without one the file is sound for every frame that is valid on the server. */
  lemma {:induction false} FileIsSoundIff(r: Reading, client: map<string, Schema>)
    requires AllPatternFree(r.defs)
    ensures FileIsSound(r, Merged(r, client)) <==> SharedNamesAreSound(r, client)
  {
    if SharedNamesAreSound(r, client) {
      forall fuel: nat, v, s | PatternFree(s) && Fits(r, fuel, v, s)
        ensures Inhabits(Merged(r, client), fuel, v, TypeOf(s))
      {
        SharedNamesAreEnough(r, client, fuel, v, s);
      }
    }
    if FileIsSound(r, Merged(r, client)) {
      forall name: string, fuel: nat, v: Json |
          '/' !in name && name in r.defs && name in client && Fits(r, fuel, v, r.defs[name])
        ensures Inhabits(Merged(r, client), fuel, v, TypeOf(client[name]))
      {
        if !Inhabits(Merged(r, client), fuel, v, TypeOf(client[name])) {
          SharedNameIsUnsound(r, client, fuel, v, name);
        }
      }
    }
  }

  // ---------------------------------------------------------------- exactness

  /** A schema that says one thing, and something TypeScript can say as well: no `oneOf`, no
      `integer`, nothing that the generator drops. */
  predicate Expressible(s: Schema) {
    && s.others == [] && s.patterns == [] && s.oneOf.NoParts?
    && match (s.ref, s.constant, s.enumeration, s.anyOf, s.kind)
       case (Some(_), None, None, NoParts, None) => Bare(s)
       case (None, Some(_), None, NoParts, None) => Bare(s)
       case (None, None, Some(_), NoParts, None) => Bare(s)
       case (None, None, None, Parts(parts), None) => Bare(s) && forall part <- parts :: Expressible(part)
       case (None, None, None, NoParts, None) => Bare(s)
       case (None, None, None, NoParts, Some(One(name))) =>
         if name == "array" then s.items.Some? ==> Expressible(s.items.value)
         else if name == "object" then
           && (s.properties.Properties? ==>
                 s.additional.NoAdditional? && forall p <- s.properties.list :: Expressible(p.schema))
           && (s.additional.Allowed? ==> s.additional.yes)
           && (s.additional.Constrained? ==> Expressible(s.additional.schema))
         else name in {"string", "number", "boolean", "null"}
       case _ => false
  }

  predicate Bare(s: Schema) {
    s.items.None? && s.properties.NoProperties? && s.additional.NoAdditional?
  }

  /** On those schemas the translation loses nothing: type and schema have the same values. */
  lemma {:induction false} TypeIsExact(r: Reading, fuel: nat, v: Json, s: Schema)
    requires Expressible(s) && forall name <- r.defs :: Expressible(r.defs[name])
    ensures Fits(r, fuel, v, s) <==> Inhabits(r, fuel, v, TypeOf(s))
    decreases fuel, s, v, 3
  {
    if s.ref.Some? {
      if fuel > 0 && AfterLastSlash(s.ref.value) in r.defs {
        TypeIsExact(r, fuel - 1, v, r.defs[AfterLastSlash(s.ref.value)]);
      }
    } else if s.constant.Some? {
    } else if s.enumeration.Some? {
      EnumerationIsSound(r, fuel, v, s.enumeration.value);
    } else if s.anyOf.Parts? {
      UnionIsExact(r, fuel, v, s.anyOf.list);
    } else if s.kind.Some? {
      TypedIsExact(r, fuel, v, s);
    }
  }

  lemma {:induction false} UnionIsExact(r: Reading, fuel: nat, v: Json, parts: seq<Schema>)
    requires (forall part <- parts :: Expressible(part))
             && forall name <- r.defs :: Expressible(r.defs[name])
    ensures (exists part <- parts :: Fits(r, fuel, v, part)) <==> Inhabits(r, fuel, v, Union(TypesOf(parts)))
    decreases fuel, parts, v, 0
  {
    if part :| part in parts && Fits(r, fuel, v, part) {
      var i :| 0 <= i < |parts| && parts[i] == part;
      TypeIsExact(r, fuel, v, parts[i]);
      PartInhabitsUnion(r, fuel, v, parts, i);
    }
    if Inhabits(r, fuel, v, Union(TypesOf(parts))) {
      var i := InhabitedPart(r, fuel, v, parts);
      TypeIsExact(r, fuel, v, parts[i]);
    }
  }

  lemma {:induction false} InhabitedPart(r: Reading, fuel: nat, v: Json, parts: seq<Schema>) returns (i: nat)
    requires Inhabits(r, fuel, v, Union(TypesOf(parts)))
    ensures i < |parts| && parts[i] in parts && Inhabits(r, fuel, v, TypeOf(parts[i]))
  {
    var ts := TypesOf(parts);
    var t :| t in ts && Inhabits(r, fuel, v, t);
    i :| 0 <= i < |ts| && ts[i] == t;
  }

  lemma {:induction false} TypedIsExact(r: Reading, fuel: nat, v: Json, s: Schema)
    requires Expressible(s) && forall name <- r.defs :: Expressible(r.defs[name])
    requires s.kind.Some?
    ensures Fits(r, fuel, v, s) <==> Inhabits(r, fuel, v, TypeOf(s))
    decreases fuel, s, v, 2
  {
    if s.kind.value == One("array") && v.JArr? && s.items.Some? {
      ItemsAreExact(r, fuel, v, s.items.value);
    } else if s.kind.value == One("object") {
      ObjectIsExact(r, fuel, v, s);
    }
  }

  lemma {:induction false} ObjectIsExact(r: Reading, fuel: nat, v: Json, s: Schema)
    requires Expressible(s) && forall name <- r.defs :: Expressible(r.defs[name])
    requires s.kind == Some(One("object"))
    ensures Fits(r, fuel, v, s) <==> Inhabits(r, fuel, v, TypeOf(s))
    decreases fuel, s, v, 1
  {
    if s.properties.Properties? {
      ShapeIsExact(r, fuel, v, s);
    } else {
      RecordIsExact(r, fuel, v, s);
    }
  }

  lemma {:induction false} ShapeIsExact(r: Reading, fuel: nat, v: Json, s: Schema)
    requires Expressible(s) && forall name <- r.defs :: Expressible(r.defs[name])
    requires s.kind == Some(One("object")) && s.properties.Properties?
    ensures Fits(r, fuel, v, s) <==> Inhabits(r, fuel, v, TypeOf(s))
    decreases fuel, s, v, 0
  {
    if v.JObj? {
      ShapeFits(r, fuel, v, s);
      PropertiesAreExact(r, fuel, v, s.properties.list);
    }
  }

  /** On an expressible schema with properties, nothing but they is asked for. */
  lemma {:induction false} ShapeFits(r: Reading, fuel: nat, v: Json, s: Schema)
    requires Expressible(s) && s.kind == Some(One("object")) && s.properties.Properties? && v.JObj?
    ensures Fits(r, fuel, v, s) <==>
              forall p <- s.properties.list :: p.name in v.fields && Fits(r, fuel, v.fields[p.name], p.schema)
  {
  }

  lemma {:induction false} RecordIsExact(r: Reading, fuel: nat, v: Json, s: Schema)
    requires Expressible(s) && forall name <- r.defs :: Expressible(r.defs[name])
    requires s.kind == Some(One("object")) && s.properties.NoProperties?
    ensures Fits(r, fuel, v, s) <==> Inhabits(r, fuel, v, TypeOf(s))
    decreases fuel, s, v, 0
  {
    if v.JObj? && s.additional.Constrained? {
      ValuesAreExact(r, fuel, v, s.additional.schema);
    }
  }

  lemma {:induction false} ItemsAreExact(r: Reading, fuel: nat, v: Json, s: Schema)
    requires v.JArr? && Expressible(s) && forall name <- r.defs :: Expressible(r.defs[name])
    ensures (forall x <- v.items :: Fits(r, fuel, x, s)) <==> Inhabits(r, fuel, v, Array(TypeOf(s)))
    decreases fuel, s, v, 4
  {
    forall x <- v.items ensures Fits(r, fuel, x, s) <==> Inhabits(r, fuel, x, TypeOf(s)) {
      TypeIsExact(r, fuel, x, s);
    }
  }

  lemma {:induction false} ValuesAreExact(r: Reading, fuel: nat, v: Json, s: Schema)
    requires v.JObj? && Expressible(s) && forall name <- r.defs :: Expressible(r.defs[name])
    ensures (forall k <- v.fields :: Fits(r, fuel, v.fields[k], s)) <==> Inhabits(r, fuel, v, Record(TypeOf(s)))
    decreases fuel, s, v, 4
  {
    forall k <- v.fields ensures Fits(r, fuel, v.fields[k], s) <==> Inhabits(r, fuel, v.fields[k], TypeOf(s)) {
      TypeIsExact(r, fuel, v.fields[k], s);
    }
  }

  lemma {:induction false} PropertiesAreExact(r: Reading, fuel: nat, v: Json, ps: seq<Property>)
    requires v.JObj?
    requires (forall p <- ps :: Expressible(p.schema)) && forall name <- r.defs :: Expressible(r.defs[name])
    ensures (forall p <- ps :: p.name in v.fields && Fits(r, fuel, v.fields[p.name], p.schema))
       <==> Inhabits(r, fuel, v, Object(FieldsOf(ps)))
    decreases fuel, ps, v, 0
  {
    var fs := FieldsOf(ps);
    forall i | 0 <= i < |ps|
      ensures ps[i] in ps && fs[i] in fs
      ensures ps[i].name in v.fields ==>
                (Fits(r, fuel, v.fields[ps[i].name], ps[i].schema)
                 <==> Inhabits(r, fuel, v.fields[ps[i].name], fs[i].ty))
    {
      if ps[i].name in v.fields {
        TypeIsExact(r, fuel, v.fields[ps[i].name], ps[i].schema);
      }
    }
  }
}
