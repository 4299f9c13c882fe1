/**
 * The part of the Joi validation library that the schemas of this service use, as an interpreter
 * over schema values. `Validate` follows Joi's `validate(value, { allowUnknown: false, abortEarly: false })`:
 * it collects every violation with the path where it occurs, in the order Joi reports them.
 * `Accepts` says independently when a value conforms; `ValidateAccepts` proves the two agree.
 */
module Joi {
  import opened Wrappers
  import opened JsValue

  datatype PathSegment = Key(name: string) | Index(position: nat)

  type Path = seq<PathSegment>

  /** The `type` of a Joi error detail. */
  datatype ErrorType =
    | AnyRequired | AnyOnly
    | StringBase | StringEmpty | StringLength | StringUri
    | NumberBase | NumberInteger | NumberMin | NumberMax
    | BooleanBase
    | ObjectBase | ObjectUnknown
    | ArrayBase | ArraySparse

  /** One entry of `error.details`: where the value is and what is wrong with it. */
  datatype Violation = Violation(path: Path, error: ErrorType)

  datatype StringRule = LengthRule(length: nat) | UriRule

  datatype NumberRule = IntegerRule | MinRule(limit: real) | MaxRule(limit: real)

  /** One entry of the key map given to `Joi.object({ ... })`. */
  datatype Child = Child(key: string, schema: Schema)

  /**
   * The type of a schema with its type-specific settings. For objects: `keyed` says whether keys
   * were declared, `pattern` is the value rule of `.pattern(Joi.string(), rule)` and
   * `unknownAllowed` is `.unknown(true)`. For arrays, `items` is the single `.items(...)` schema.
   */
  datatype Kind =
    | AnyKind
    | StringKind(stringRules: seq<StringRule>)
    | NumberKind(numberRules: seq<NumberRule>)
    | BooleanKind
    | ObjectKind(keyed: bool, children: seq<Child>, pattern: Option<Schema>, unknownAllowed: bool)
    | ArrayKind(items: Option<Schema>)

  /** A schema: its kind, `.required()`, the values of `.allow(...)`/`.valid(...)`, and the `only` flag `.valid` sets. */
  datatype Schema = Schema(kind: Kind, required: bool, allowed: seq<Value>, only: bool)

  // The fluent builders of Joi's API, so that schemas read as they are written in JavaScript.

  /** `Joi.any()` */
  function AnySchema(): Schema { Schema(AnyKind, false, [], false) }

  /** `Joi.string()` */
  function StringSchema(): Schema { Schema(StringKind([]), false, [], false) }

  /** `Joi.number()` */
  function NumberSchema(): Schema { Schema(NumberKind([]), false, [], false) }

  /** `Joi.boolean()` */
  function BooleanSchema(): Schema { Schema(BooleanKind, false, [], false) }

  /** `Joi.object()` */
  function ObjectSchema(): Schema { Schema(ObjectKind(false, [], None, false), false, [], false) }

  /** `Joi.object({ ... })` */
  function ObjectKeys(children: seq<Child>): Schema { Schema(ObjectKind(true, children, None, false), false, [], false) }

  /** `Joi.array()` */
  function ArraySchema(): Schema { Schema(ArrayKind(None), false, [], false) }

  /** `.required()` */
  function Required(s: Schema): Schema { s.(required := true) }

  /** `.allow(...values)` */
  function Allow(s: Schema, values: seq<Value>): Schema { s.(allowed := s.allowed + values) }

  /** `.valid(...values)` */
  function Valid(s: Schema, values: seq<Value>): Schema { s.(allowed := s.allowed + values, only := true) }

  /** `.integer()` */
  function Integer(s: Schema): Schema
    requires s.kind.NumberKind?
  {
    s.(kind := NumberKind(s.kind.numberRules + [IntegerRule]))
  }

  /** `.min(limit)` on a number */
  function Min(s: Schema, limit: real): Schema
    requires s.kind.NumberKind?
  {
    s.(kind := NumberKind(s.kind.numberRules + [MinRule(limit)]))
  }

  /** `.max(limit)` on a number */
  function Max(s: Schema, limit: real): Schema
    requires s.kind.NumberKind?
  {
    s.(kind := NumberKind(s.kind.numberRules + [MaxRule(limit)]))
  }

  /** `.length(n)` on a string */
  function Length(s: Schema, n: nat): Schema
    requires s.kind.StringKind?
  {
    s.(kind := StringKind(s.kind.stringRules + [LengthRule(n)]))
  }

  /** `.uri()` on a string */
  function Uri(s: Schema): Schema
    requires s.kind.StringKind?
  {
    s.(kind := StringKind(s.kind.stringRules + [UriRule]))
  }

  /** `.unknown(true)` on an object */
  function Unknown(s: Schema): Schema
    requires s.kind.ObjectKind?
  {
    s.(kind := s.kind.(unknownAllowed := true))
  }

  /** `.pattern(Joi.string(), rule)` on an object */
  function Pattern(s: Schema, rule: Schema): Schema
    requires s.kind.ObjectKind?
  {
    s.(kind := s.kind.(pattern := Some(rule)))
  }

  /** `.items(item)` on an array */
  function Items(s: Schema, item: Schema): Schema
    requires s.kind.ArrayKind?
  {
    s.(kind := ArrayKind(Some(item)))
  }

  /**
   * JavaScript's `length` of a string: its UTF-16 code units. A character outside the Basic
   * Multilingual Plane takes two.
   */
  function Utf16Length(s: string): nat
  {
    if s == [] then 0 else (if s[0] as int >= 0x1_0000 then 2 else 1) + Utf16Length(s[1..])
  }

  predicate StringRuleHolds(rule: StringRule, s: string, isUri: string -> bool)
  {
    match rule
    case LengthRule(n) => Utf16Length(s) == n
    case UriRule => isUri(s)
  }

  predicate NumberRuleHolds(rule: NumberRule, n: real)
  {
    match rule
    case IntegerRule => n.Floor as real == n
    case MinRule(limit) => n >= limit
    case MaxRule(limit) => n <= limit
  }

  /** A key matches `Joi.string()`, the key schema of `.pattern`, when it is not empty. */
  predicate PatternKey(k: string)
  {
    k != ""
  }

  function DeclaredKeys(children: seq<Child>): seq<string>
  {
    seq(|children|, i requires 0 <= i < |children| => children[i].key)
  }

  /** The keys of an object that its schema does not declare, in insertion order. */
  function Undeclared(keys: seq<string>, declared: seq<string>): (r: seq<string>)
    ensures forall k :: k in r <==> k in keys && k !in declared
  {
    if keys == [] then []
    else (if keys[0] in declared then [] else [keys[0]]) + Undeclared(keys[1..], declared)
  }

  function Flatten<T>(xss: seq<seq<T>>): seq<T>
  {
    if xss == [] then [] else xss[0] + Flatten(xss[1..])
  }

  function StringRuleViolations(rules: seq<StringRule>, s: string, path: Path, isUri: string -> bool): seq<Violation>
  {
    if rules == [] then []
    else
      var error := if rules[0].LengthRule? then StringLength else StringUri;
      (if StringRuleHolds(rules[0], s, isUri) then [] else [Violation(path, error)])
      + StringRuleViolations(rules[1..], s, path, isUri)
  }

  function NumberRuleViolations(rules: seq<NumberRule>, n: real, path: Path): seq<Violation>
  {
    if rules == [] then []
    else
      var error := match rules[0] case IntegerRule => NumberInteger case MinRule(_) => NumberMin case MaxRule(_) => NumberMax;
      (if NumberRuleHolds(rules[0], n) then [] else [Violation(path, error)])
      + NumberRuleViolations(rules[1..], n, path)
  }

  /** `object.unknown` for every undeclared key that no pattern takes. */
  function UnknownViolations(rest: seq<string>, patterned: bool, path: Path): seq<Violation>
  {
    if rest == [] then []
    else
      (if patterned && PatternKey(rest[0]) then [] else [Violation(path + [Key(rest[0])], ObjectUnknown)])
      + UnknownViolations(rest[1..], patterned, path)
  }

  /**
   * Every violation of `v` against `s`, located below `path`. An undefined value only fails
   * `.required()`; an allowed value passes at once; `.valid` adds `any.only` and validation goes
   * on; a wrong base type ends validation of the value; all failing rules, keys and items are
   * reported.
   */
  function Validate(s: Schema, v: Value, path: Path, isUri: string -> bool): seq<Violation>
    decreases s, 1
  {
    if v.Undefined? then (if s.required then [Violation(path, AnyRequired)] else [])
    else if v in s.allowed then []
    else
      (if s.only then [Violation(path, AnyOnly)] else [])
      + match s.kind
        case AnyKind => []
        case StringKind(rules) =>
          if !v.Str? then [Violation(path, StringBase)]
          else if v.s == "" then [Violation(path, StringEmpty)]
          else StringRuleViolations(rules, v.s, path, isUri)
        case NumberKind(rules) =>
          if !v.Num? then [Violation(path, NumberBase)] else NumberRuleViolations(rules, v.n, path)
        case BooleanKind =>
          if !v.Bool? then [Violation(path, BooleanBase)] else []
        case ObjectKind(keyed, children, pattern, unknownAllowed) =>
          if !v.Obj? then [Violation(path, ObjectBase)]
          else
            ChildViolations(s, v, path, isUri)
            + (if pattern.Some? then PatternViolations(s, v, path, isUri) else [])
            + (if (keyed || pattern.Some?) && !unknownAllowed
               then UnknownViolations(UndeclaredKeys(s, v), pattern.Some?, path)
               else [])
        case ArrayKind(items) =>
          if !v.Arr? then [Violation(path, ArrayBase)]
          else if items.None? then []
          else ItemViolations(s, v, path, isUri)
  }

  /** The keys of an object value that an object schema does not declare, in insertion order. */
  function UndeclaredKeys(s: Schema, v: Value): seq<string>
    requires s.kind.ObjectKind? && v.Obj?
  {
    Undeclared(v.keys, DeclaredKeys(s.kind.children))
  }

  /** The violations below the declared keys, key by key in schema order. */
  function ChildViolations(s: Schema, v: Value, path: Path, isUri: string -> bool): seq<Violation>
    requires s.kind.ObjectKind? && v.Obj?
    decreases s, 0
  {
    var children := s.kind.children;
    Flatten(seq(|children|, i requires 0 <= i < |children| =>
                  assert children[i] in children;
                  Validate(children[i].schema, Get(v, children[i].key), path + [Key(children[i].key)], isUri)))
  }

  /** The violations below the undeclared keys that the pattern takes. */
  function PatternViolations(s: Schema, v: Value, path: Path, isUri: string -> bool): seq<Violation>
    requires s.kind.ObjectKind? && s.kind.pattern.Some? && v.Obj?
    decreases s, 0
  {
    var rest := UndeclaredKeys(s, v);
    Flatten(seq(|rest|, i requires 0 <= i < |rest| =>
                  if PatternKey(rest[i]) then Validate(s.kind.pattern.value, Get(v, rest[i]), path + [Key(rest[i])], isUri)
                  else []))
  }

  /** The violations of one item: a hole is `array.sparse` (`.sparse()` is not set), anything else is validated. */
  function ItemViolation(item: Schema, element: Value, path: Path, isUri: string -> bool): seq<Violation>
    decreases item, 2
  {
    if element.Undefined? then [Violation(path, ArraySparse)] else Validate(item, element, path, isUri)
  }

  /** The violations inside the items of an array, item by item. */
  function ItemViolations(s: Schema, v: Value, path: Path, isUri: string -> bool): seq<Violation>
    requires s.kind.ArrayKind? && s.kind.items.Some? && v.Arr?
    decreases s, 0
  {
    Flatten(seq(|v.elems|, i requires 0 <= i < |v.elems| => ItemViolation(s.kind.items.value, v.elems[i], path + [Index(i)], isUri)))
  }

  /** When an undeclared key of an object is acceptable. */
  ghost predicate ExtraKeyAccepted(keyed: bool, pattern: Option<Schema>, unknownAllowed: bool, k: string, value: Value, isUri: string -> bool)
    decreases pattern, 2
  {
    if pattern.Some? && PatternKey(k) then Accepts(pattern.value, value, isUri)
    else unknownAllowed || !(keyed || pattern.Some?)
  }

  /** When `v` conforms to `s`, stated without collecting violations. */
  ghost predicate Accepts(s: Schema, v: Value, isUri: string -> bool)
    decreases s, 1
  {
    if v.Undefined? then !s.required
    else
      v in s.allowed
      || (!s.only && match s.kind
          case AnyKind => true
          case StringKind(rules) =>
            v.Str? && v.s != "" && forall i | 0 <= i < |rules| :: StringRuleHolds(rules[i], v.s, isUri)
          case NumberKind(rules) =>
            v.Num? && forall i | 0 <= i < |rules| :: NumberRuleHolds(rules[i], v.n)
          case BooleanKind => v.Bool?
          case ObjectKind(keyed, children, pattern, unknownAllowed) =>
            && v.Obj?
            && (forall c | c in children :: Accepts(c.schema, Get(v, c.key), isUri))
            && (forall k | k in v.props && k !in DeclaredKeys(children) ::
                  ExtraKeyAccepted(keyed, pattern, unknownAllowed, k, v.props[k], isUri))
          case ArrayKind(items) =>
            v.Arr? && (items.Some? ==> forall i | 0 <= i < |v.elems| :: !v.elems[i].Undefined? && Accepts(items.value, v.elems[i], isUri)))
  }

  lemma {:induction false} FlattenEmpty<T>(xss: seq<seq<T>>)
    ensures Flatten(xss) == [] <==> forall i | 0 <= i < |xss| :: xss[i] == []
  {
    if xss != [] {
      FlattenEmpty(xss[1..]);
      assert forall i | 1 <= i < |xss| :: xss[i] == xss[1..][i - 1];
    }
  }

  lemma {:induction false} FlattenContains<T>(xss: seq<seq<T>>, i: nat, x: T)
    requires i < |xss| && x in xss[i]
    ensures x in Flatten(xss)
  {
    if i > 0 {
      assert xss[1..][i - 1] == xss[i];
      FlattenContains(xss[1..], i - 1, x);
    }
  }

  lemma {:induction false} StringRulesPass(rules: seq<StringRule>, s: string, path: Path, isUri: string -> bool)
    ensures StringRuleViolations(rules, s, path, isUri) == [] <==> forall i | 0 <= i < |rules| :: StringRuleHolds(rules[i], s, isUri)
  {
    if rules != [] {
      StringRulesPass(rules[1..], s, path, isUri);
      assert forall i | 1 <= i < |rules| :: rules[i] == rules[1..][i - 1];
    }
  }

  lemma {:induction false} NumberRulesPass(rules: seq<NumberRule>, n: real, path: Path)
    ensures NumberRuleViolations(rules, n, path) == [] <==> forall i | 0 <= i < |rules| :: NumberRuleHolds(rules[i], n)
  {
    if rules != [] {
      NumberRulesPass(rules[1..], n, path);
      assert forall i | 1 <= i < |rules| :: rules[i] == rules[1..][i - 1];
    }
  }

  lemma {:induction false} UnknownViolationsEmpty(rest: seq<string>, patterned: bool, path: Path)
    ensures UnknownViolations(rest, patterned, path) == [] <==> forall k | k in rest :: patterned && PatternKey(k)
  {
    if rest != [] {
      UnknownViolationsEmpty(rest[1..], patterned, path);
      var head := if patterned && PatternKey(rest[0]) then [] else [Violation(path + [Key(rest[0])], ObjectUnknown)];
      assert UnknownViolations(rest, patterned, path) == head + UnknownViolations(rest[1..], patterned, path);
      if UnknownViolations(rest, patterned, path) == [] {
        assert head == [];
        forall k | k in rest ensures patterned && PatternKey(k) {
          if k != rest[0] {
            assert k in rest[1..];
          }
        }
      } else {
        if head == [] {
          var k :| k in rest[1..] && !(patterned && PatternKey(k));
          assert k in rest;
        } else {
          assert rest[0] in rest;
        }
      }
    }
  }

  lemma {:induction false} UnknownViolationsContain(rest: seq<string>, patterned: bool, path: Path, k: string)
    requires k in rest && !(patterned && PatternKey(k))
    ensures Violation(path + [Key(k)], ObjectUnknown) in UnknownViolations(rest, patterned, path)
  {
    if rest[0] != k {
      UnknownViolationsContain(rest[1..], patterned, path, k);
    }
  }

  /** With `abortEarly: false`, a value has no violation exactly when it conforms to the schema. */
  lemma {:induction false} ValidateAccepts(s: Schema, v: Value, path: Path, isUri: string -> bool)
    requires WellFormed(v)
    ensures Validate(s, v, path, isUri) == [] <==> Accepts(s, v, isUri)
    decreases s, 1
  {
    if v.Undefined? || v in s.allowed {
      return;
    }
    match s.kind
    case AnyKind =>
    case StringKind(rules) =>
      if v.Str? && v.s != "" {
        StringRulesPass(rules, v.s, path, isUri);
      }
    case NumberKind(rules) =>
      if v.Num? {
        NumberRulesPass(rules, v.n, path);
      }
    case BooleanKind =>
    case ObjectKind(keyed, children, pattern, unknownAllowed) =>
      if v.Obj? {
        ChildrenAccept(s, v, path, isUri);
        if pattern.Some? {
          PatternAccepts(s, v, path, isUri);
        }
        UnknownViolationsEmpty(UndeclaredKeys(s, v), pattern.Some?, path);
        assert forall k :: k in UndeclaredKeys(s, v) <==> k in v.props && k !in DeclaredKeys(children);
      }
    case ArrayKind(items) =>
      if v.Arr? && items.Some? {
        ItemsAccept(s, v, path, isUri);
      }
  }

  lemma {:induction false} ChildrenAccept(s: Schema, v: Value, path: Path, isUri: string -> bool)
    requires s.kind.ObjectKind? && v.Obj? && WellFormed(v)
    ensures ChildViolations(s, v, path, isUri) == []
            <==> forall c | c in s.kind.children :: Accepts(c.schema, Get(v, c.key), isUri)
    decreases s, 0
  {
    var children := s.kind.children;
    var parts := seq(|children|, i requires 0 <= i < |children| =>
                      Validate(children[i].schema, Get(v, children[i].key), path + [Key(children[i].key)], isUri));
    FlattenEmpty(parts);
    forall i | 0 <= i < |children|
      ensures parts[i] == [] <==> Accepts(children[i].schema, Get(v, children[i].key), isUri)
    {
      assert children[i] in children;
      ValidateAccepts(children[i].schema, Get(v, children[i].key), path + [Key(children[i].key)], isUri);
    }
    assert forall c | c in children :: exists i | 0 <= i < |children| :: children[i] == c;
  }

  lemma {:induction false} PatternAccepts(s: Schema, v: Value, path: Path, isUri: string -> bool)
    requires s.kind.ObjectKind? && s.kind.pattern.Some? && v.Obj? && WellFormed(v)
    ensures PatternViolations(s, v, path, isUri) == []
            <==> forall k | k in UndeclaredKeys(s, v) && PatternKey(k) :: Accepts(s.kind.pattern.value, Get(v, k), isUri)
    decreases s, 0
  {
    var rest := UndeclaredKeys(s, v);
    var parts := seq(|rest|, i requires 0 <= i < |rest| =>
                      if PatternKey(rest[i]) then Validate(s.kind.pattern.value, Get(v, rest[i]), path + [Key(rest[i])], isUri) else []);
    FlattenEmpty(parts);
    forall i | 0 <= i < |rest| && PatternKey(rest[i])
      ensures parts[i] == [] <==> Accepts(s.kind.pattern.value, Get(v, rest[i]), isUri)
    {
      ValidateAccepts(s.kind.pattern.value, Get(v, rest[i]), path + [Key(rest[i])], isUri);
    }
    assert forall k | k in rest :: exists i | 0 <= i < |rest| :: rest[i] == k;
  }

  lemma {:induction false} ItemsAccept(s: Schema, v: Value, path: Path, isUri: string -> bool)
    requires s.kind.ArrayKind? && s.kind.items.Some? && v.Arr? && WellFormed(v)
    ensures ItemViolations(s, v, path, isUri) == []
            <==> forall i | 0 <= i < |v.elems| :: !v.elems[i].Undefined? && Accepts(s.kind.items.value, v.elems[i], isUri)
    decreases s, 0
  {
    var parts := seq(|v.elems|, i requires 0 <= i < |v.elems| => ItemViolation(s.kind.items.value, v.elems[i], path + [Index(i)], isUri));
    FlattenEmpty(parts);
    forall i | 0 <= i < |v.elems|
      ensures parts[i] == [] <==> !v.elems[i].Undefined? && Accepts(s.kind.items.value, v.elems[i], isUri)
    {
      if !v.elems[i].Undefined? {
        ValidateAccepts(s.kind.items.value, v.elems[i], path + [Index(i)], isUri);
      }
    }
  }

  /** `abortEarly: false`: a violation below a declared key is reported whatever the other keys hold. */
  lemma ChildViolationReported(s: Schema, v: Value, path: Path, isUri: string -> bool, i: nat, e: Violation)
    requires s.kind.ObjectKind? && v.Obj? && v !in s.allowed && i < |s.kind.children|
    requires e in Validate(s.kind.children[i].schema, Get(v, s.kind.children[i].key), path + [Key(s.kind.children[i].key)], isUri)
    ensures e in Validate(s, v, path, isUri)
  {
    var children := s.kind.children;
    var parts := seq(|children|, j requires 0 <= j < |children| =>
                      Validate(children[j].schema, Get(v, children[j].key), path + [Key(children[j].key)], isUri));
    FlattenContains(parts, i, e);
  }

  /** A key that an object schema with declared keys and no pattern does not declare is reported as unknown. */
  lemma UnknownKeyReported(s: Schema, v: Value, path: Path, isUri: string -> bool, k: string)
    requires s.kind.ObjectKind? && s.kind.keyed && s.kind.pattern.None? && !s.kind.unknownAllowed
    requires v.Obj? && v !in s.allowed && k in v.keys && k !in DeclaredKeys(s.kind.children)
    ensures Violation(path + [Key(k)], ObjectUnknown) in Validate(s, v, path, isUri)
  {
    UnknownViolationsContain(UndeclaredKeys(s, v), false, path, k);
  }

  /** `abortEarly: false`: a violation inside any item of an array is reported. */
  lemma ItemViolationReported(s: Schema, v: Value, path: Path, isUri: string -> bool, i: nat, e: Violation)
    requires s.kind.ArrayKind? && s.kind.items.Some? && v.Arr? && v !in s.allowed && i < |v.elems|
    requires e in ItemViolation(s.kind.items.value, v.elems[i], path + [Index(i)], isUri)
    ensures e in Validate(s, v, path, isUri)
  {
    var parts := seq(|v.elems|, j requires 0 <= j < |v.elems| => ItemViolation(s.kind.items.value, v.elems[j], path + [Index(j)], isUri));
    FlattenContains(parts, i, e);
  }

  /** A hole in an array with an item schema is reported as `array.sparse` at its position, whatever the item schema. */
  lemma SparseItemReported(s: Schema, v: Value, path: Path, isUri: string -> bool, i: nat)
    requires s.kind.ArrayKind? && s.kind.items.Some? && v.Arr? && v !in s.allowed && i < |v.elems|
    requires v.elems[i].Undefined?
    ensures Violation(path + [Index(i)], ArraySparse) in Validate(s, v, path, isUri)
  {
    ItemViolationReported(s, v, path, isUri, i, Violation(path + [Index(i)], ArraySparse));
  }

  /** Characters of the Basic Multilingual Plane take one code unit each, so `length` is the character count. */
  lemma {:induction false} Utf16LengthOfBmp(s: string)
    requires forall i | 0 <= i < |s| :: s[i] as int < 0x1_0000
    ensures Utf16Length(s) == |s|
  {
    if s != [] {
      Utf16LengthOfBmp(s[1..]);
    }
  }

  /** A string's `length` is at least its character count and at most twice it. */
  lemma {:induction false} Utf16LengthBounds(s: string)
    ensures |s| <= Utf16Length(s) <= 2 * |s|
  {
    if s != [] {
      Utf16LengthBounds(s[1..]);
    }
  }

  /** A conforming object (not `undefined`) holds, under its `i`-th declared key, a value that key's schema accepts. */
  lemma AcceptedChild(s: Schema, v: Value, isUri: string -> bool, i: nat)
    requires s.kind.ObjectKind? && !s.only && v !in s.allowed && !v.Undefined?
    requires Accepts(s, v, isUri) && i < |s.kind.children|
    ensures v.Obj?
    ensures Accepts(s.kind.children[i].schema, Get(v, s.kind.children[i].key), isUri)
  {
    assert s.kind.children[i] in s.kind.children;
  }

  /** Every declared key of `children` holds, in `v`, a value its schema accepts. */
  ghost predicate ChildrenConform(children: seq<Child>, v: Value, isUri: string -> bool)
  {
    ChildrenConformIn(children, 0, |children|, v, isUri)
  }

  /** The declared keys at positions `lo` to `hi - 1` hold, in `v`, values their schemas accept. */
  ghost predicate ChildrenConformIn(children: seq<Child>, lo: nat, hi: nat, v: Value, isUri: string -> bool)
    requires lo <= hi <= |children|
  {
    forall i | lo <= i < hi :: Accepts(children[i].schema, Get(v, children[i].key), isUri)
  }

  /** The declared keys conform when those of each of two adjacent ranges do. */
  lemma ChildrenConformSplit(children: seq<Child>, lo: nat, mid: nat, hi: nat, v: Value, isUri: string -> bool)
    requires lo <= mid <= hi <= |children|
    ensures ChildrenConformIn(children, lo, hi, v, isUri)
            <==> ChildrenConformIn(children, lo, mid, v, isUri) && ChildrenConformIn(children, mid, hi, v, isUri)
  {
  }

  /**
   * A closed object schema (declared keys, no pattern, unknown keys refused, no `.valid`) accepts an
   * object it does not list as allowed exactly when every declared key holds a conforming value and
   * the object has no other key.
   */
  lemma ClosedObjectAccepts(s: Schema, v: Value, isUri: string -> bool)
    requires s.kind.ObjectKind? && s.kind.keyed && s.kind.pattern.None? && !s.kind.unknownAllowed && !s.only
    requires v.Obj? && v !in s.allowed
    ensures Accepts(s, v, isUri)
            <==> ChildrenConform(s.kind.children, v, isUri) && forall k | k in v.props :: k in DeclaredKeys(s.kind.children)
  {
    var children := s.kind.children;
    assert forall c | c in children :: exists i | 0 <= i < |children| :: children[i] == c;
  }

  /** A declared `.required()` key that the object lacks is reported as `any.required` at its path. */
  lemma MissingRequiredReported(s: Schema, v: Value, path: Path, isUri: string -> bool, i: nat)
    requires s.kind.ObjectKind? && v.Obj? && v !in s.allowed && i < |s.kind.children|
    requires s.kind.children[i].schema.required && s.kind.children[i].key !in v.props
    ensures Violation(path + [Key(s.kind.children[i].key)], AnyRequired) in Validate(s, v, path, isUri)
  {
    ChildViolationReported(s, v, path, isUri, i, Violation(path + [Key(s.kind.children[i].key)], AnyRequired));
  }
}
