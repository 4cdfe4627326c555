/** The validator of the intermediate representation against JSON schemas. */
module JsonSchema {
  import opened Bytes
  import opened Json

  /** The outcomes: fatal error, failed, validated. */
  const FATAL: int := -1
  const FAILED: int := 0
  const VALID: int := 1

  // ---- what the validator computes ------------------------------------------------------------------

  predicate TypeMatches(name: string, value: Json) {
    match value
    case Obj(_) => name == "object"
    case Arr(_) => name == "array"
    case Int(_) => name == "integer"
    case Str(_) => name == "string"
    case Bool(_) => name == "boolean"
    case Double(_) => name == "double"
    case Null => false
  }

  /** A C `int` as an unsigned 64-bit number. */
  function CastU64(v: int): u64
    requires -0x8000_0000 <= v < 0x8000_0000
  {
    if v < 0 then v + 0x1_0000_0000_0000_0000 else v
  }

  /** The comparisons as they are made: the bound saturates to a C `int`, then both sides are unsigned. */
  predicate AboveMinimum(bound: int, value: int) {
    GetUint64(Int(value)) >= CastU64(GetInt(Int(bound)))
  }

  predicate BelowMaximum(bound: int, value: int) {
    GetUint64(Int(value)) <= CastU64(GetInt(Int(bound)))
  }

  function IntegerResult(schema: Json, value: int): int {
    var min, max := Get(schema, "minimum"), Get(schema, "maximum");
    if min.Int? && !AboveMinimum(min.i, value) then FAILED
    else if max.Int? && !BelowMaximum(max.i, value) then FAILED
    else VALID
  }

  /** Files that can be loaded matter only for references: what they hold is not looked at. */
  ghost function FieldResult(files: set<string>, schema: Json, value: Json): (r: int)
    ensures -1 <= r <= 1
    decreases schema, 3
  {
    var ref, fieldType := Get(schema, "$ref"), Get(schema, "type");
    if ref.Str? && ref.s !in files then FATAL
    else if !fieldType.Str? then FATAL
    else if !TypeMatches(fieldType.s, value) then FAILED
    else
      var chosen := if Get(schema, "oneOf").Arr? then OptionsResult(files, schema, value, 0) else VALID;
      if chosen != VALID then chosen
      else
        match value
        case Int(i) => IntegerResult(schema, i)
        case Obj(_) => ObjectResult(files, schema, value)
        case Arr(_) => ArrayResult(files, schema, value)
        case _ => VALID
  }

  /** The first of the options from the i-th that does not fail; one that is no object is passed over. */
  ghost function OptionsResult(files: set<string>, schema: Json, value: Json, i: nat): (r: int)
    requires Get(schema, "oneOf").Arr? && i <= |Get(schema, "oneOf").a|
    ensures -1 <= r <= 1
    decreases schema, 2, |Get(schema, "oneOf").a| - i
  {
    var options := Get(schema, "oneOf").a;
    if i == |options| then FAILED
    else
      var r := if options[i].Obj? then FieldResult(files, options[i], value) else FAILED;
      if r == FAILED then OptionsResult(files, schema, value, i + 1) else r
  }

  ghost predicate RequiredPresent(schema: Json, value: Json) {
    var required := Get(schema, "required");
    required.Arr? ==> forall i :: 0 <= i < |required.a| ==>
      required.a[i].Str? && !Get(value, required.a[i].s).Null?
  }

  predicate MoreAllowed(schema: Json) {
    var more := Get(schema, "additionalProperties");
    more.Bool? && more.b
  }

  /** Every member of the value has a property schema. */
  ghost predicate Closed(properties: Json, value: Json)
    requires value.Obj?
  {
    forall k :: k in value.o ==> !Get(properties, k).Null?
  }

  /** A fatal error in a property passes for a success. */
  ghost function ObjectResult(files: set<string>, schema: Json, value: Json): (r: int)
    requires value.Obj?
    ensures 0 <= r <= 1
    decreases schema, 2, 0
  {
    var properties := Get(schema, "properties");
    if !RequiredPresent(schema, value) then FAILED
    else if !properties.Obj? then VALID
    else if (exists k :: k in properties.o && !Get(value, k).Null? &&
                         FieldResult(files, properties.o[k], Get(value, k)) == FAILED) then FAILED
    else if !MoreAllowed(schema) && !Closed(properties, value) then FAILED
    else VALID
  }

  ghost function ArrayResult(files: set<string>, schema: Json, value: Json): (r: int)
    requires value.Arr?
    ensures 0 <= r <= 1
    decreases schema, 2, 0
  {
    var items := Get(schema, "items");
    if items.Obj? && exists i :: 0 <= i < |value.a| && FieldResult(files, items, value.a[i]) == FAILED then FAILED
    else VALID
  }

  // ---- the validator ------------------------------------------------------------------------------------
  // Each call gets a schema that is a strict part of the caller's, so that validation ends even where the value stays
  // the same.

  method ValidateField(files: set<string>, schema: Json, value: Json) returns (r: int)
    ensures r == FieldResult(files, schema, value)
    decreases schema, 3
  {
    hide RequiredPresent, Closed, AboveMinimum, BelowMaximum;
    var ref := Get(schema, "$ref");
    if ref.Str? && ref.s !in files {
      return FATAL;
    }
    var fieldType := Get(schema, "type");
    if !fieldType.Str? {
      return FATAL;
    }
    if !TypeMatches(fieldType.s, value) {
      return FAILED;
    }
    if Get(schema, "oneOf").Arr? {
      var validated := ValidateOptions(files, schema, value);
      if validated != VALID {
        return validated;
      }
    }
    match value
    case Int(i) =>
      r := ValidateInteger(schema, i);
    case Obj(_) =>
      r := ValidateObject(files, schema, value);
    case Arr(_) =>
      r := ValidateArray(files, schema, value);
    case _ =>
      r := VALID;
  }

  method ValidateOptions(files: set<string>, schema: Json, value: Json) returns (validated: int)
    requires Get(schema, "oneOf").Arr?
    ensures validated == OptionsResult(files, schema, value, 0)
    decreases schema, 2
  {
    var options := Get(schema, "oneOf").a;
    validated := FAILED;
    for i := 0 to |options|
      invariant validated == FAILED
      invariant OptionsResult(files, schema, value, 0) == OptionsResult(files, schema, value, i)
    {
      if options[i].Obj? {
        validated := ValidateField(files, options[i], value);
        if validated != FAILED {
          return;
        }
      }
    }
  }

  method ValidateInteger(schema: Json, value: int) returns (r: int)
    ensures r == IntegerResult(schema, value)
  {
    var min := Get(schema, "minimum");
    if min.Int? {
      var bound := GetInt(min);
      if GetUint64(Int(value)) < CastU64(bound) {
        return FAILED;
      }
    }
    var max := Get(schema, "maximum");
    if max.Int? {
      var bound := GetInt(max);
      if GetUint64(Int(value)) > CastU64(bound) {
        return FAILED;
      }
    }
    r := VALID;
  }

  method CheckRequired(schema: Json, value: Json) returns (ok: bool)
    ensures ok == RequiredPresent(schema, value)
  {
    var required := Get(schema, "required");
    if required.Arr? {
      for i := 0 to |required.a|
        invariant forall j :: 0 <= j < i ==> required.a[j].Str? && !Get(value, required.a[j].s).Null?
      {
        if !required.a[i].Str? || Get(value, required.a[i].s).Null? {
          return false;
        }
      }
    }
    ok := true;
  }

  method CheckClosed(properties: Json, value: Json) returns (ok: bool)
    requires value.Obj?
    ensures ok == Closed(properties, value)
  {
    var keys := value.o.Keys;
    while keys != {}
      invariant keys <= value.o.Keys
      invariant forall k :: k in value.o && k !in keys ==> !Get(properties, k).Null?
      decreases |keys|
    {
      var key :| key in keys;
      keys := keys - {key};
      if Get(properties, key).Null? {
        return false;
      }
    }
    ok := true;
  }

  /** The properties may be gone through in any order. */
  method ValidateObject(files: set<string>, schema: Json, value: Json) returns (r: int)
    requires value.Obj?
    ensures r == ObjectResult(files, schema, value)
    decreases schema, 2
  {
    hide RequiredPresent, Closed, FieldResult;
    var ok := CheckRequired(schema, value);
    if !ok {
      return FAILED;
    }
    var properties := Get(schema, "properties");
    if properties.Obj? {
      var keys := properties.o.Keys;
      while keys != {}
        invariant keys <= properties.o.Keys
        invariant forall k :: k in properties.o && k !in keys && !Get(value, k).Null? ==>
          FieldResult(files, properties.o[k], Get(value, k)) != FAILED
        decreases |keys|
      {
        var key :| key in keys;
        keys := keys - {key};
        if !Get(value, key).Null? {
          var validated := ValidateField(files, properties.o[key], Get(value, key));
          if validated == FAILED {
            return FAILED;
          }
        }
      }
      if !MoreAllowed(schema) {
        ok := CheckClosed(properties, value);
        if !ok {
          return FAILED;
        }
      }
    }
    r := VALID;
  }

  method ValidateArray(files: set<string>, schema: Json, value: Json) returns (r: int)
    requires value.Arr?
    ensures r == ArrayResult(files, schema, value)
    decreases schema, 2
  {
    hide FieldResult;
    var items := Get(schema, "items");
    if items.Obj? {
      for i := 0 to |value.a|
        invariant forall j :: 0 <= j < i ==> FieldResult(files, items, value.a[j]) != FAILED
      {
        var validated := ValidateField(files, items, value.a[i]);
        if validated == FAILED {
          return FAILED;
        }
      }
    }
    r := VALID;
  }

  // ---- what it means for a value to conform -----------------------------------------------------------------

  /** The types of JSON values under the names that schemas give them. */
  predicate HasType(name: string, value: Json) {
    || (name == "object" && value.Obj?) || (name == "array" && value.Arr?) || (name == "integer" && value.Int?)
    || (name == "string" && value.Str?) || (name == "boolean" && value.Bool?) || (name == "double" && value.Double?)
  }

  /** Every name on the list of required members is that of a member that is not null. */
  ghost predicate HasRequired(schema: Json, value: Json)
    requires value.Obj?
  {
    var required := Get(schema, "required");
    required.Arr? ==> forall r :: r in required.a ==> r.Str? && r.s in value.o && value.o[r.s] != Null
  }

  predicate AllowsMore(schema: Json) {
    Get(schema, "additionalProperties") == Bool(true)
  }

  ghost predicate OnlyKnown(properties: map<string, Json>, value: Json)
    requires value.Obj?
  {
    forall k :: k in value.o ==> k in properties && properties[k] != Null
  }

  lemma TypesAgree(name: string, value: Json)
    ensures TypeMatches(name, value) <==> HasType(name, value)
  {
  }

  lemma MembersAgree(schema: Json, properties: Json, value: Json)
    requires value.Obj?
    ensures RequiredPresent(schema, value) <==> HasRequired(schema, value)
    ensures MoreAllowed(schema) <==> AllowsMore(schema)
    ensures properties.Obj? ==> (Closed(properties, value) <==> OnlyKnown(properties.o, value))
  {
    RequiredAgree(schema, value);
  }

  lemma RequiredAgree(schema: Json, value: Json)
    requires value.Obj?
    ensures RequiredPresent(schema, value) <==> HasRequired(schema, value)
  {
    var required := Get(schema, "required");
    if required.Arr? && HasRequired(schema, value) {
      forall i | 0 <= i < |required.a|
        ensures required.a[i].Str? && !Get(value, required.a[i].s).Null?
      {
        assert required.a[i] in required.a;
      }
    }
  }

  ghost predicate InBounds(schema: Json, value: int) {
    var min, max := Get(schema, "minimum"), Get(schema, "maximum");
    (min.Int? ==> min.i <= value) && (max.Int? ==> value <= max.i)
  }

  /** The type is right, one of the options (if there are any) fits, and the members, items or bounds that the schema
      speaks of are as it says. Null members count as absent. */
  ghost predicate Conforms(schema: Json, value: Json)
    decreases schema, 1
  {
    var fieldType, options := Get(schema, "type"), Get(schema, "oneOf");
    && fieldType.Str? && HasType(fieldType.s, value)
    && (options.Arr? ==> exists i :: 0 <= i < |options.a| && options.a[i].Obj? && Conforms(options.a[i], value))
    && (value.Int? ==> InBounds(schema, value.i))
    && (value.Obj? ==> ObjectConforms(schema, value))
    && (value.Arr? ==> ArrayConforms(schema, value))
  }

  ghost predicate ObjectConforms(schema: Json, value: Json)
    requires value.Obj?
    decreases schema, 0
  {
    var properties := Get(schema, "properties");
    && HasRequired(schema, value)
    && (properties.Obj? ==>
      && (forall k :: k in properties.o && !Get(value, k).Null? ==> Conforms(properties.o[k], Get(value, k)))
      && (AllowsMore(schema) || OnlyKnown(properties.o, value)))
  }

  ghost predicate ArrayConforms(schema: Json, value: Json)
    requires value.Arr?
    decreases schema, 0
  {
    var items := Get(schema, "items");
    items.Obj? ==> forall i :: 0 <= i < |value.a| ==> Conforms(items, value.a[i])
  }

  function Outcome(ok: bool): int {
    if ok then VALID else FAILED
  }

  // ---- the outcome for any schema and any value -----------------------------------------------------------------

  /** A schema that the validator cannot use: its reference cannot be loaded, or its type is not given as a string. */
  ghost predicate Unusable(files: set<string>, schema: Json) {
    var ref := Get(schema, "$ref");
    (ref.Str? && ref.s !in files) || !Get(schema, "type").Str?
  }

  /** Whether an unusable schema is met at the top: the schema itself, or one of its options after options that all
      fail. */
  ghost predicate MeetsFatal(files: set<string>, schema: Json, value: Json)
    decreases schema, 2
  {
    var options := Get(schema, "oneOf");
    || Unusable(files, schema)
    || (HasType(Get(schema, "type").s, value) && options.Arr? &&
        exists i :: 0 <= i < |options.a| && FatalOption(files, schema, value, i))
  }

  ghost predicate FatalOption(files: set<string>, schema: Json, value: Json, i: nat)
    requires Get(schema, "oneOf").Arr? && i < |Get(schema, "oneOf").a|
    decreases schema, 1
  {
    var options := Get(schema, "oneOf").a;
    && options[i].Obj? && MeetsFatal(files, options[i], value)
    && forall j :: 0 <= j < i ==> FailingOption(files, schema, value, j)
  }

  ghost predicate FailingOption(files: set<string>, schema: Json, value: Json, i: nat)
    requires Get(schema, "oneOf").Arr? && i < |Get(schema, "oneOf").a|
    decreases schema, 0
  {
    var option := Get(schema, "oneOf").a[i];
    option.Obj? ==> !MeetsFatal(files, option, value) && !Passes(files, option, value)
  }

  ghost predicate PassingOption(files: set<string>, schema: Json, value: Json, i: nat)
    requires Get(schema, "oneOf").Arr? && i < |Get(schema, "oneOf").a|
    decreases schema, 0
  {
    var option := Get(schema, "oneOf").a[i];
    option.Obj? && !MeetsFatal(files, option, value) && Passes(files, option, value)
  }

  /** Like conforming, except that members and items with an unusable schema pass and bounds are compared as the
      validator compares them. */
  ghost predicate Passes(files: set<string>, schema: Json, value: Json)
    decreases schema, 2
  {
    var fieldType, options := Get(schema, "type"), Get(schema, "oneOf");
    && fieldType.Str? && HasType(fieldType.s, value)
    && (options.Arr? ==> exists i :: 0 <= i < |options.a| && PassingOption(files, schema, value, i))
    && (value.Int? ==> IntegerPasses(schema, value.i))
    && (value.Obj? ==> ObjectPasses(files, schema, value))
    && (value.Arr? ==> ArrayPasses(files, schema, value))
  }

  ghost predicate IntegerPasses(schema: Json, value: int) {
    var min, max := Get(schema, "minimum"), Get(schema, "maximum");
    (min.Int? ==> AboveMinimum(min.i, value)) && (max.Int? ==> BelowMaximum(max.i, value))
  }

  ghost predicate ObjectPasses(files: set<string>, schema: Json, value: Json)
    requires value.Obj?
    decreases schema, 1
  {
    var properties := Get(schema, "properties");
    && HasRequired(schema, value)
    && (properties.Obj? ==>
      && (forall k :: k in properties.o && !Get(value, k).Null? ==> PartPasses(files, properties.o[k], Get(value, k)))
      && (AllowsMore(schema) || OnlyKnown(properties.o, value)))
  }

  ghost predicate ArrayPasses(files: set<string>, schema: Json, value: Json)
    requires value.Arr?
    decreases schema, 1
  {
    var items := Get(schema, "items");
    items.Obj? ==> forall i :: 0 <= i < |value.a| ==> PartPasses(files, items, value.a[i])
  }

  /** A fatal error in a member or an item is lost: it counts as a success. */
  ghost predicate PartPasses(files: set<string>, schema: Json, value: Json)
    decreases schema, 3
  {
    MeetsFatal(files, schema, value) || Passes(files, schema, value)
  }

  /** For every schema and every value: a fatal error is reported exactly when one is met at the top, and otherwise the
      validator says exactly whether the value passes. */
  lemma {:induction false} OutcomeExact(files: set<string>, schema: Json, value: Json)
    ensures FieldResult(files, schema, value) == FATAL <==> MeetsFatal(files, schema, value)
    ensures FieldResult(files, schema, value) == VALID <==>
      !MeetsFatal(files, schema, value) && Passes(files, schema, value)
    decreases schema, 3
  {
    hide RequiredPresent, Closed, AboveMinimum, BelowMaximum, OptionsResult, ObjectResult, ArrayResult, FatalOption,
      PassingOption, ObjectPasses, ArrayPasses, TypeMatches, HasType;
    if !Unusable(files, schema) {
      TypesAgree(Get(schema, "type").s, value);
    }
    if !Unusable(files, schema) && TypeMatches(Get(schema, "type").s, value) {
      if Get(schema, "oneOf").Arr? {
        OptionsOutcome(files, schema, value);
      }
      if value.Obj? {
        ObjectOutcome(files, schema, value);
      } else if value.Arr? {
        ArrayOutcome(files, schema, value);
      }
    }
  }

  /** The first option from the i-th that does not fail decides. */
  lemma {:induction false} DecidingOption(files: set<string>, schema: Json, value: Json, i: nat) returns (k: nat)
    requires Get(schema, "oneOf").Arr? && i <= |Get(schema, "oneOf").a|
    ensures var options := Get(schema, "oneOf").a;
      && i <= k <= |options| && (forall j :: i <= j < k ==> FailingOption(files, schema, value, j))
      && (if k == |options| then OptionsResult(files, schema, value, i) == FAILED
          else
            && !FailingOption(files, schema, value, k)
            && OptionsResult(files, schema, value, i) == FieldResult(files, options[k], value) != FAILED)
    decreases schema, 1, |Get(schema, "oneOf").a| - i
  {
    hide Passes, MeetsFatal, FieldResult;
    var options := Get(schema, "oneOf").a;
    k := i;
    if i < |options| {
      if options[i].Obj? {
        OutcomeExact(files, options[i], value);
      }
      if FailingOption(files, schema, value, i) {
        k := DecidingOption(files, schema, value, i + 1);
      }
    }
  }

  ghost predicate SomeFatal(files: set<string>, schema: Json, value: Json)
    requires Get(schema, "oneOf").Arr?
  {
    exists i :: 0 <= i < |Get(schema, "oneOf").a| && FatalOption(files, schema, value, i)
  }

  ghost predicate SomePassing(files: set<string>, schema: Json, value: Json)
    requires Get(schema, "oneOf").Arr?
  {
    exists i :: 0 <= i < |Get(schema, "oneOf").a| && PassingOption(files, schema, value, i)
  }

  lemma {:induction false} OptionsOutcome(files: set<string>, schema: Json, value: Json)
    requires Get(schema, "oneOf").Arr?
    ensures OptionsResult(files, schema, value, 0) == FATAL <==> SomeFatal(files, schema, value)
    ensures OptionsResult(files, schema, value, 0) == VALID <==>
      !SomeFatal(files, schema, value) && SomePassing(files, schema, value)
    decreases schema, 2
  {
    hide Passes, MeetsFatal, FieldResult, OptionsResult;
    var options := Get(schema, "oneOf").a;
    var k := DecidingOption(files, schema, value, 0);
    if k < |options| {
      OutcomeExact(files, options[k], value);
      if MeetsFatal(files, options[k], value) {
        assert FatalOption(files, schema, value, k);
      } else {
        assert PassingOption(files, schema, value, k);
        forall i | 0 <= i < |options|
          ensures !FatalOption(files, schema, value, i)
        {
          if i < k {
            assert FailingOption(files, schema, value, i);
          }
        }
      }
    } else {
      forall i | 0 <= i < k
        ensures !FatalOption(files, schema, value, i) && !PassingOption(files, schema, value, i)
      {
        assert FailingOption(files, schema, value, i);
      }
    }
  }

  lemma {:induction false} ObjectOutcome(files: set<string>, schema: Json, value: Json)
    requires value.Obj?
    ensures ObjectResult(files, schema, value) == Outcome(ObjectPasses(files, schema, value))
    decreases schema, 2
  {
    hide RequiredPresent, Closed, MoreAllowed, HasRequired, OnlyKnown, AllowsMore, FieldResult, Passes, MeetsFatal;
    var properties := Get(schema, "properties");
    MembersAgree(schema, properties, value);
    if properties.Obj? {
      forall k | k in properties.o && !Get(value, k).Null?
        ensures FieldResult(files, properties.o[k], Get(value, k)) != FAILED <==>
          PartPasses(files, properties.o[k], Get(value, k))
      {
        OutcomeExact(files, properties.o[k], Get(value, k));
      }
    }
  }

  lemma {:induction false} ArrayOutcome(files: set<string>, schema: Json, value: Json)
    requires value.Arr?
    ensures ArrayResult(files, schema, value) == Outcome(ArrayPasses(files, schema, value))
    decreases schema, 2
  {
    hide FieldResult, Passes, MeetsFatal;
    var items := Get(schema, "items");
    if items.Obj? {
      forall i | 0 <= i < |value.a|
        ensures FieldResult(files, items, value.a[i]) != FAILED <==> PartPasses(files, items, value.a[i])
      {
        OutcomeExact(files, items, value.a[i]);
      }
    }
  }

  // ---- schemas on which passing is conforming -------------------------------------------------------------------

  ghost predicate SmallBound(bound: Json) {
    bound.Int? ==> 0 <= bound.i < 0x8000_0000
  }

  /** Every part that is used as a schema is usable, and integer bounds fit a C `int` and are not negative. */
  ghost predicate WellFormed(files: set<string>, schema: Json)
    decreases schema
  {
    var options, properties, items := Get(schema, "oneOf"), Get(schema, "properties"), Get(schema, "items");
    && !Unusable(files, schema)
    && SmallBound(Get(schema, "minimum")) && SmallBound(Get(schema, "maximum"))
    && (options.Arr? ==> forall i :: 0 <= i < |options.a| && options.a[i].Obj? ==> WellFormed(files, options.a[i]))
    && (properties.Obj? ==> forall k :: k in properties.o ==> WellFormed(files, properties.o[k]))
    && (items.Obj? ==> WellFormed(files, items))
  }

  /** No integer in the value is negative. */
  ghost predicate NonNegative(value: Json)
    decreases value
  {
    match value
    case Int(i) => i >= 0
    case Arr(a) => forall i :: 0 <= i < |a| ==> NonNegative(a[i])
    case Obj(o) => forall k :: k in o ==> NonNegative(o[k])
    case _ => true
  }

  lemma {:induction false} NeverFatal(files: set<string>, schema: Json, value: Json)
    requires WellFormed(files, schema)
    ensures !MeetsFatal(files, schema, value)
    decreases schema
  {
    hide Unusable, Passes;
    var options := Get(schema, "oneOf");
    if options.Arr? {
      forall i | 0 <= i < |options.a|
        ensures !FatalOption(files, schema, value, i)
      {
        if options.a[i].Obj? {
          NeverFatal(files, options.a[i], value);
        }
      }
    }
  }

  lemma BoundsExact(schema: Json, value: nat)
    requires SmallBound(Get(schema, "minimum")) && SmallBound(Get(schema, "maximum"))
    ensures IntegerPasses(schema, value) <==> InBounds(schema, value)
  {
  }

  lemma {:induction false} PassesExact(files: set<string>, schema: Json, value: Json)
    requires WellFormed(files, schema) && NonNegative(value)
    ensures Passes(files, schema, value) <==> Conforms(schema, value)
    decreases schema, 1
  {
    hide InBounds, IntegerPasses, ObjectPasses, ObjectConforms, ArrayPasses, ArrayConforms, MeetsFatal, HasType;
    var options := Get(schema, "oneOf");
    if options.Arr? {
      forall i | 0 <= i < |options.a|
        ensures PassingOption(files, schema, value, i) <==> options.a[i].Obj? && Conforms(options.a[i], value)
      {
        if options.a[i].Obj? {
          NeverFatal(files, options.a[i], value);
          PassesExact(files, options.a[i], value);
        }
      }
    }
    match value
    case Int(i) =>
      BoundsExact(schema, i);
    case Obj(_) =>
      ObjectExact(files, schema, value);
    case Arr(_) =>
      ArrayExact(files, schema, value);
    case _ =>
  }

  lemma {:induction false} ObjectExact(files: set<string>, schema: Json, value: Json)
    requires WellFormed(files, schema) && NonNegative(value) && value.Obj?
    ensures ObjectPasses(files, schema, value) <==> ObjectConforms(schema, value)
    decreases schema, 0
  {
    hide HasRequired, OnlyKnown, AllowsMore, Passes, Conforms, MeetsFatal;
    var properties := Get(schema, "properties");
    if properties.Obj? {
      forall k | k in properties.o && !Get(value, k).Null?
        ensures PartPasses(files, properties.o[k], Get(value, k)) <==> Conforms(properties.o[k], Get(value, k))
      {
        assert WellFormed(files, properties.o[k]) && NonNegative(Get(value, k));
        NeverFatal(files, properties.o[k], Get(value, k));
        PassesExact(files, properties.o[k], Get(value, k));
      }
    }
  }

  lemma {:induction false} ArrayExact(files: set<string>, schema: Json, value: Json)
    requires WellFormed(files, schema) && NonNegative(value) && value.Arr?
    ensures ArrayPasses(files, schema, value) <==> ArrayConforms(schema, value)
    decreases schema, 0
  {
    hide Passes, Conforms, MeetsFatal;
    var items := Get(schema, "items");
    if items.Obj? {
      forall i | 0 <= i < |value.a|
        ensures PartPasses(files, items, value.a[i]) <==> Conforms(items, value.a[i])
      {
        assert WellFormed(files, items) && NonNegative(value.a[i]);
        NeverFatal(files, items, value.a[i]);
        PassesExact(files, items, value.a[i]);
      }
    }
  }

  /** On well-formed schemas the validator never errs and says exactly whether the value conforms. */
  lemma ValidatorExact(files: set<string>, schema: Json, value: Json)
    requires WellFormed(files, schema) && NonNegative(value)
    ensures FieldResult(files, schema, value) == Outcome(Conforms(schema, value))
  {
    hide FieldResult, MeetsFatal, Passes, Conforms, WellFormed, NonNegative;
    OutcomeExact(files, schema, value);
    NeverFatal(files, schema, value);
    PassesExact(files, schema, value);
  }

  /** A schema that speaks of nothing but a type accepts exactly the values of that type. */
  lemma TypeExact(files: set<string>, name: string, value: Json)
    ensures FieldResult(files, Obj(map["type" := Str(name)]), value) == Outcome(
      || (name == "object" && value.Obj?) || (name == "array" && value.Arr?) || (name == "integer" && value.Int?)
      || (name == "string" && value.Str?) || (name == "boolean" && value.Bool?) || (name == "double" && value.Double?))
  {
    var schema := Obj(map["type" := Str(name)]);
    assert Get(schema, "type") == Str(name) && Get(schema, "$ref").Null? && Get(schema, "oneOf").Null?;
    assert Get(schema, "minimum").Null? && Get(schema, "maximum").Null? && Get(schema, "items").Null?;
    assert Get(schema, "required").Null? && Get(schema, "properties").Null?;
    TypesAgree(name, value);
  }

  // ---- where the validator and the meaning of a schema part ---------------------------------------------------

  /** When the comparison with a minimum gives the mathematical answer, for all integers: not for a negative value
      against zero, nor for values that a saturated or a negative bound stands in for. */
  ghost predicate MinimumFaithful(bound: int, value: int) {
    if bound < 0 then value < bound || value >= 0x1_0000_0000_0000_0000 + GetInt(Int(bound))
    else if bound < 0x8000_0000 then value >= 0 || bound > 0
    else value < 0x7FFF_FFFF || value >= bound
  }

  lemma MinimumExact(bound: int, value: int)
    ensures (AboveMinimum(bound, value) <==> bound <= value) <==> MinimumFaithful(bound, value)
  {
  }

  /** Likewise for a maximum: a negative bound lets every ordinary value pass. */
  ghost predicate MaximumFaithful(bound: int, value: int) {
    if bound < 0 then value <= bound || (bound != -1 && value > 0x1_0000_0000_0000_0000 + GetInt(Int(bound)))
    else if bound < 0x8000_0000 then true
    else value <= 0x7FFF_FFFF || value > bound
  }

  lemma MaximumExact(bound: int, value: int)
    ensures (BelowMaximum(bound, value) <==> value <= bound) <==> MaximumFaithful(bound, value)
  {
  }

  /** A schema for integers with one bound. */
  function Bounded(key: string, bound: int): Json {
    Obj(map["type" := Str("integer"), key := Int(bound)])
  }

  /** A value of five passes a maximum of minus one and fails a minimum of minus one. */
  lemma NegativeBound()
    ensures FieldResult({}, Bounded("maximum", -1), Int(5)) == VALID && !Conforms(Bounded("maximum", -1), Int(5))
    ensures FieldResult({}, Bounded("minimum", -1), Int(5)) == FAILED && Conforms(Bounded("minimum", -1), Int(5))
  {
    BoundedMembers("maximum", -1);
    BoundedMembers("minimum", -1);
  }

  lemma BoundedMembers(key: string, bound: int)
    requires key == "minimum" || key == "maximum"
    ensures var schema := Bounded(key, bound);
      && Get(schema, "type") == Str("integer") && Get(schema, "$ref").Null? && Get(schema, "oneOf").Null?
      && Get(schema, "minimum") == (if key == "minimum" then Int(bound) else Null)
      && Get(schema, "maximum") == (if key == "maximum" then Int(bound) else Null)
  {
  }

  /** A property whose schema cannot be used is a fatal error on its own, but passes inside an object. */
  lemma FatalPropertyPasses(files: set<string>, key: string, property: Json, value: Json)
    requires Unusable(files, property) && !property.Null?
    ensures FieldResult(files, property, value) == FATAL
    ensures var schema := Obj(map["type" := Str("object"), "properties" := Obj(map[key := property])]);
      FieldResult(files, schema, Obj(map[key := value])) == VALID
  {
    var schema := Obj(map["type" := Str("object"), "properties" := Obj(map[key := property])]);
    assert Get(schema, "type") == Str("object") && Get(schema, "properties") == Obj(map[key := property]);
    assert Get(schema, "$ref").Null? && Get(schema, "oneOf").Null? && Get(schema, "required").Null?;
  }

  /** Likewise for the items of an array. */
  lemma FatalItemPasses(files: set<string>, items: Json, values: seq<Json>)
    requires Unusable(files, items) && items.Obj? && values != []
    ensures forall i :: 0 <= i < |values| ==> FieldResult(files, items, values[i]) == FATAL
    ensures FieldResult(files, Obj(map["type" := Str("array"), "items" := items]), Arr(values)) == VALID
  {
    var schema := Obj(map["type" := Str("array"), "items" := items]);
    assert Get(schema, "type") == Str("array") && Get(schema, "items") == items;
    assert Get(schema, "$ref").Null? && Get(schema, "oneOf").Null?;
  }
}
