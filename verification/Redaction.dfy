/**
  `redact_data` (scripts/support_bundle.py): recursive masking of the data that goes
  into a support bundle. The regular expressions and `redact_text` are parameters.
 */
module Redaction {
  const MASK := "<redacted>"

  /** A mapping is the list of its items in insertion order. */
  datatype Value =
    | Dict(fields: seq<Field>)
    | List(items: seq<Value>)
    | Tuple(items: seq<Value>)
    | Str(text: string)
    | Other(id: int)

  datatype Field = Field(key: string, value: Value)

  /** The patterns: secret, env and header keys, secret command-line flags, `$VAR` references, and
      the rewriting of free text. */
  datatype Rules = Rules(
    secretKey: string -> bool, envKey: string -> bool, headerKey: string -> bool,
    secretFlag: string -> bool, reference: string -> bool, redactText: string -> string)

  predicate IsFlag(r: Rules, v: Value) {
    v.Str? && r.secretFlag(v.text)
  }

  /** The item follows a secret flag that is not itself a flag's value. */
  predicate AfterFlag(r: Rules, items: seq<Value>, i: nat)
    requires i < |items|
  {
    i > 0 && IsFlag(r, items[i - 1]) && !AfterFlag(r, items, i - 1)
  }

  predicate Container(v: Value) {
    v.Dict? || v.List? || v.Tuple?
  }

  function Redact(r: Rules, v: Value): Value
    decreases v, 0
  {
    match v
    case Dict(fields) =>
      Dict(seq(|fields|, i requires 0 <= i < |fields| =>
        Field(fields[i].key, RedactUnder(r, fields[i].key, fields[i].value))))
    case List(items) => List(seq(|items|, i requires 0 <= i < |items| => RedactItem(r, AfterFlag(r, items, i),
        items[i])))
    case Tuple(items) => List(seq(|items|, i requires 0 <= i < |items| => RedactItem(r, AfterFlag(r, items, i),
        items[i])))
    case Str(text) => Str(r.redactText(text))
    case Other(_) => v
  }

  /** A list item: flags stay, a string after a flag is masked. */
  function RedactItem(r: Rules, afterFlag: bool, v: Value): Value
    decreases v, 1
  {
    if afterFlag && v.Str? then Str(MASK)
    else if !afterFlag && IsFlag(r, v) then v
    else Redact(r, v)
  }

  /** A value of an `env` mapping: only references and nested containers stay visible. */
  function RedactEnv(r: Rules, v: Value): Value
    decreases v, 1
  {
    if v.Str? && r.reference(v.text) then v
    else if Container(v) then Redact(r, v)
    else Str(MASK)
  }

  /** The value of a mapping, by its key. */
  function RedactUnder(r: Rules, key: string, v: Value): Value
    decreases v, 1
  {
    if r.secretKey(key) then Str(MASK)
    else if r.envKey(key) && v.Dict? then
      Dict(seq(|v.fields|, i requires 0 <= i < |v.fields| => Field(v.fields[i].key, RedactEnv(r, v.fields[i].value))))
    else if r.headerKey(key) && v.Dict? then
      Dict(seq(|v.fields|, i requires 0 <= i < |v.fields| => Field(v.fields[i].key, Str(MASK))))
    else Redact(r, v)
  }

  // ---------------------------------------------------------------------------
  // The loops
  // ---------------------------------------------------------------------------

  /** `redact_data`. */
  method RedactData(r: Rules, v: Value) returns (redacted: Value)
    ensures redacted == Redact(r, v)
    decreases v, 0
  {
    match v {
      case Dict(fields) =>
        var out: seq<Field> := [];
        for n := 0 to |fields|
          invariant |out| == n
          invariant forall i :: 0 <= i < n ==>
                      out[i] == Field(fields[i].key, RedactUnder(r, fields[i].key, fields[i].value))
        {
          var key, item := fields[n].key, fields[n].value;
          var masked: Value;
          if r.secretKey(key) {
            masked := Str(MASK);
          } else if r.envKey(key) && item.Dict? {
            masked := RedactEnvDict(r, item);
          } else if r.headerKey(key) && item.Dict? {
            masked := Dict(seq(|item.fields|, i requires 0 <= i < |item.fields| =>
                Field(item.fields[i].key, Str(MASK))));
          } else {
            masked := RedactData(r, item);
          }
          out := out + [Field(key, masked)];
        }
        assert out == Redact(r, v).fields;
        return Dict(out);
      case List(items) =>
        redacted := RedactSecretFlagList(r, v);
      case Tuple(items) =>
        redacted := RedactSecretFlagList(r, v);
      case Str(text) =>
        return Str(r.redactText(text));
      case Other(_) =>
        return v;
    }
  }

  /** `_redact_secret_flag_list`. */
  method RedactSecretFlagList(r: Rules, v: Value) returns (redacted: Value)
    requires v.List? || v.Tuple?
    ensures redacted == Redact(r, v)
    decreases v, -1
  {
    var items := v.items;
    var out: seq<Value> := [];
    var maskNext := false;
    for n := 0 to |items|
      invariant |out| == n
      invariant forall i :: 0 <= i < n ==> out[i] == RedactItem(r, AfterFlag(r, items, i), items[i])
      invariant n < |items| ==> maskNext == AfterFlag(r, items, n)
    {
      var item := items[n];
      if maskNext {
        var kept := if item.Str? then Str(MASK) else item;
        if !item.Str? {
          kept := RedactData(r, item);
        }
        out := out + [kept];
        maskNext := false;
      } else if IsFlag(r, item) {
        out := out + [item];
        maskNext := true;
      } else {
        var inner := RedactData(r, item);
        out := out + [inner];
      }
    }
    assert out == Redact(r, v).items;
    redacted := List(out);
  }

  /** The comprehension over an `env` mapping. */
  method RedactEnvDict(r: Rules, v: Value) returns (redacted: Value)
    requires v.Dict?
    ensures redacted ==
      Dict(seq(|v.fields|, i requires 0 <= i < |v.fields| => Field(v.fields[i].key, RedactEnv(r, v.fields[i].value))))
    decreases v, 0
  {
    var out: seq<Field> := [];
    for n := 0 to |v.fields|
      invariant |out| == n
      invariant forall i :: 0 <= i < n ==> out[i] == Field(v.fields[i].key, RedactEnv(r, v.fields[i].value))
    {
      var item := v.fields[n].value;
      var masked := Str(MASK);
      if item.Str? && r.reference(item.text) {
        masked := item;
      } else if Container(item) {
        masked := RedactData(r, item);
      }
      out := out + [Field(v.fields[n].key, masked)];
    }
    redacted := Dict(out);
  }

  // ---------------------------------------------------------------------------
  // Idempotence
  // ---------------------------------------------------------------------------

  ghost predicate Idempotent(r: Rules) {
    forall v :: Redact(r, Redact(r, v)) == Redact(r, v)
  }

  ghost predicate TextIdempotent(r: Rules) {
    forall s :: r.redactText(r.redactText(s)) == r.redactText(s)
  }

  ghost predicate NoNewFlags(r: Rules) {
    forall s :: r.secretFlag(r.redactText(s)) ==> r.secretFlag(s)
  }

  lemma SameKind(r: Rules, v: Value)
    ensures Redact(r, v).Dict? <==> v.Dict?
    ensures Redact(r, v).List? <==> v.List? || v.Tuple?
    ensures Redact(r, v).Str? <==> v.Str?
  {
  }

  /** Redacting a list keeps which positions follow a flag. */
  lemma {:induction false} SameFlags(r: Rules, items: seq<Value>, out: seq<Value>, i: nat)
    requires NoNewFlags(r) && i < |items| == |out|
    requires forall k :: 0 <= k < |items| ==> out[k] == RedactItem(r, AfterFlag(r, items, k), items[k])
    ensures AfterFlag(r, out, i) == AfterFlag(r, items, i)
  {
    if i > 0 {
      SameFlags(r, items, out, i - 1);
      assert out[i - 1] == RedactItem(r, AfterFlag(r, items, i - 1), items[i - 1]);
      SameKind(r, items[i - 1]);
    }
  }

  lemma {:induction false} RedactTwice(r: Rules, v: Value)
    requires TextIdempotent(r) && NoNewFlags(r)
    ensures Redact(r, Redact(r, v)) == Redact(r, v)
    decreases v, 0
  {
    match v {
      case Dict(fields) =>
        forall i | 0 <= i < |fields|
          ensures var once := RedactUnder(r, fields[i].key, fields[i].value);
                  RedactUnder(r, fields[i].key, once) == once
        {
          UnderTwice(r, fields[i].key, fields[i].value);
        }
        assert Redact(r, Redact(r, v)).fields == Redact(r, v).fields;
      case List(items) => ItemsTwice(r, v);
      case Tuple(items) => ItemsTwice(r, v);
      case Str(_) =>
      case Other(_) =>
    }
  }

  lemma {:induction false} ItemsTwice(r: Rules, v: Value)
    requires TextIdempotent(r) && NoNewFlags(r) && (v.List? || v.Tuple?)
    ensures Redact(r, Redact(r, v)) == Redact(r, v)
    decreases v, -1
  {
    var out := Redact(r, v).items;
    forall i | 0 <= i < |v.items| ensures RedactItem(r, AfterFlag(r, out, i), out[i]) == out[i] {
      SameFlags(r, v.items, out, i);
      RedactTwice(r, v.items[i]);
      SameKind(r, v.items[i]);
    }
    assert Redact(r, Redact(r, v)).items == out;
  }

  lemma {:induction false} EnvTwice(r: Rules, v: Value)
    requires TextIdempotent(r) && NoNewFlags(r)
    ensures RedactEnv(r, RedactEnv(r, v)) == RedactEnv(r, v)
    decreases v, 1
  {
    if Container(v) {
      RedactTwice(r, v);
      SameKind(r, v);
      assert Container(Redact(r, v));
    }
  }

  lemma {:induction false} UnderTwice(r: Rules, key: string, v: Value)
    requires TextIdempotent(r) && NoNewFlags(r)
    ensures var once := RedactUnder(r, key, v); RedactUnder(r, key, once) == once
    decreases v, 1
  {
    var once := RedactUnder(r, key, v);
    if r.secretKey(key) {
    } else if r.envKey(key) && v.Dict? {
      forall i | 0 <= i < |v.fields| ensures RedactEnv(r, once.fields[i].value) == once.fields[i].value {
        EnvTwice(r, v.fields[i].value);
      }
      assert RedactUnder(r, key, once).fields == once.fields;
    } else if r.headerKey(key) && v.Dict? {
      assert RedactUnder(r, key, once).fields == once.fields;
    } else {
      RedactTwice(r, v);
      SameKind(r, v);
    }
  }

  /** Redaction is idempotent on every value exactly when the text rewriting is and never makes a
      secret flag out of other text. */
  lemma IdempotentIff(r: Rules, flag: string)
    requires r.secretFlag(flag) && flag != MASK
    ensures Idempotent(r) <==> TextIdempotent(r) && NoNewFlags(r)
  {
    if TextIdempotent(r) && NoNewFlags(r) {
      forall v ensures Redact(r, Redact(r, v)) == Redact(r, v) { RedactTwice(r, v); }
    }
    if Idempotent(r) {
      forall s ensures r.redactText(r.redactText(s)) == r.redactText(s) {
        assert Redact(r, Redact(r, Str(s))) == Redact(r, Str(s));
      }
      forall s | r.secretFlag(r.redactText(s)) ensures r.secretFlag(s) {
        if !r.secretFlag(s) {
          NewFlagMasksMore(r, s, flag);
        }
      }
    }
  }

  lemma PairRedacted(r: Rules, a: Value, b: Value)
    ensures Redact(r, List([a, b])) == List([RedactItem(r, false, a), RedactItem(r, IsFlag(r, a), b)])
  {
    var items := [a, b];
    var out := Redact(r, List(items));
    assert items[0] == a && items[1] == b;
    assert !AfterFlag(r, items, 0) && AfterFlag(r, items, 1) == IsFlag(r, a);
    assert out.items == [RedactItem(r, false, a), RedactItem(r, IsFlag(r, a), b)];
  }

  lemma NewFlagMasksMore(r: Rules, s: string, flag: string)
    requires r.secretFlag(flag) && flag != MASK && !r.secretFlag(s) && r.secretFlag(r.redactText(s))
    ensures !Idempotent(r)
  {
    PairRedacted(r, Str(s), Str(flag));
    PairRedacted(r, Str(r.redactText(s)), Str(flag));
    var pair := List([Str(s), Str(flag)]);
    assert Redact(r, pair).items[1] == Str(flag) && Redact(r, Redact(r, pair)).items[1] == Str(MASK);
  }

  // ---------------------------------------------------------------------------
  // What is kept, and what does not leak
  // ---------------------------------------------------------------------------

  /** Same keys, same order. */
  ghost predicate SameKeys(fields: seq<Field>, out: seq<Field>) {
    |fields| == |out| && forall i :: 0 <= i < |fields| ==> fields[i].key == out[i].key
  }

  /** How many flags stand directly before an item. */
  function FlagRun(r: Rules, items: seq<Value>, i: nat): nat
    requires i <= |items|
  {
    if i > 0 && items[i - 1].Str? && r.secretFlag(items[i - 1].text) then 1 + FlagRun(r, items, i - 1) else 0
  }

  /** Flags are taken in pairs: an item is a flag's value when an odd number of flags stands before it. */
  lemma {:induction false} AfterFlagIff(r: Rules, items: seq<Value>, i: nat)
    requires i < |items|
    ensures AfterFlag(r, items, i) <==> FlagRun(r, items, i) % 2 == 1
  {
    if i > 0 && IsFlag(r, items[i - 1]) {
      AfterFlagIff(r, items, i - 1);
    }
  }

  /** What becomes of a list item. */
  ghost predicate KeepsItem(r: Rules, items: seq<Value>, i: nat, out: Value)
    requires i < |items|
    decreases items[i], 1
  {
    var v := items[i];
    if v.Str? && FlagRun(r, items, i) % 2 == 1 then out == Str("<redacted>")
    else if v.Str? && r.secretFlag(v.text) then out == v
    else KeepsShape(r, v, out)
  }

  /** Every level of the value, with what is masked: values under secret keys, header values, `env`
      scalars but references, and strings after a flag; other strings are rewritten. */
  ghost predicate KeepsShape(r: Rules, v: Value, out: Value)
    decreases v, 0
  {
    match v
    case Dict(fields) =>
      && out.Dict? && SameKeys(fields, out.fields)
      && forall i :: 0 <= i < |fields| ==> KeepsShapeUnder(r, fields[i].key, fields[i].value, out.fields[i].value)
    case List(items) =>
      out.List? && |out.items| == |items| && forall i :: 0 <= i < |items| ==> KeepsItem(r, items, i, out.items[i])
    case Tuple(items) =>
      out.List? && |out.items| == |items| && forall i :: 0 <= i < |items| ==> KeepsItem(r, items, i, out.items[i])
    case Str(text) => out == Str(r.redactText(text))
    case Other(_) => out == v
  }

  ghost predicate KeepsShapeUnder(r: Rules, key: string, v: Value, out: Value)
    decreases v, 1
  {
    if r.secretKey(key) then out == Str("<redacted>")
    else if r.envKey(key) && v.Dict? then
      && out.Dict? && SameKeys(v.fields, out.fields)
      && forall i :: 0 <= i < |v.fields| ==>
           var item, shown := v.fields[i].value, out.fields[i].value;
           match item
           case Str(text) => if r.reference(text) then shown == item else shown == Str("<redacted>")
           case Other(_) => shown == Str("<redacted>")
           case _ => KeepsShape(r, item, shown)
    else if r.headerKey(key) && v.Dict? then
      && out.Dict? && SameKeys(v.fields, out.fields)
      && forall i :: 0 <= i < |v.fields| ==> out.fields[i].value == Str("<redacted>")
    else KeepsShape(r, v, out)
  }

  /** Keys and lengths survive at every unmasked level, tuples become lists of the same length, and
      exactly what is to be masked is. */
  lemma {:induction false} StructureKept(r: Rules, v: Value)
    ensures KeepsShape(r, v, Redact(r, v))
    decreases v, 0
  {
    match v {
      case Dict(fields) =>
        forall i | 0 <= i < |fields|
          ensures KeepsShapeUnder(r, fields[i].key, fields[i].value, RedactUnder(r, fields[i].key, fields[i].value))
        {
          StructureKeptUnder(r, fields[i].key, fields[i].value);
        }
      case List(items) =>
        forall i | 0 <= i < |items| ensures KeepsItem(r, items, i, RedactItem(r, AfterFlag(r, items, i), items[i])) {
          AfterFlagIff(r, items, i);
          StructureKept(r, items[i]);
        }
      case Tuple(items) =>
        forall i | 0 <= i < |items| ensures KeepsItem(r, items, i, RedactItem(r, AfterFlag(r, items, i), items[i])) {
          AfterFlagIff(r, items, i);
          StructureKept(r, items[i]);
        }
      case Str(_) =>
      case Other(_) =>
    }
  }

  lemma {:induction false} StructureKeptUnder(r: Rules, key: string, v: Value)
    ensures KeepsShapeUnder(r, key, v, RedactUnder(r, key, v))
    decreases v, 1
  {
    if !r.secretKey(key) && r.envKey(key) && v.Dict? {
      forall i | 0 <= i < |v.fields| && Container(v.fields[i].value)
        ensures KeepsShape(r, v.fields[i].value, RedactEnv(r, v.fields[i].value))
      {
        StructureKept(r, v.fields[i].value);
      }
    } else if !r.secretKey(key) && !(r.headerKey(key) && v.Dict?) {
      StructureKept(r, v);
    }
  }

  /** The values differ at most where `redact_data` masks: under secret keys, in header values, in
      plain scalars of an `env` mapping, and in strings that follow a secret flag. */
  ghost predicate SameVisible(r: Rules, v: Value, w: Value)
    decreases v, 0
  {
    match v
    case Dict(fields) =>
      && w.Dict? && SameKeys(fields, w.fields)
      && forall i :: 0 <= i < |fields| ==> SameVisibleUnder(r, fields[i].key, fields[i].value, w.fields[i].value)
    case List(items) => w.List? && |w.items| == |items|
        && forall i :: 0 <= i < |items| ==> SameVisibleItem(r, items, i, w.items[i])
    case Tuple(items) => w.Tuple? && |w.items| == |items|
        && forall i :: 0 <= i < |items| ==> SameVisibleItem(r, items, i, w.items[i])
    case Str(_) => v == w
    case Other(_) => v == w
  }

  ghost predicate SameVisibleItem(r: Rules, items: seq<Value>, i: nat, w: Value)
    requires i < |items|
    decreases items[i], 1
  {
    (AfterFlag(r, items, i) && items[i].Str? && w.Str?) || SameVisible(r, items[i], w)
  }

  predicate PlainScalar(r: Rules, v: Value) {
    !Container(v) && !(v.Str? && r.reference(v.text))
  }

  ghost predicate SameVisibleUnder(r: Rules, key: string, v: Value, w: Value)
    decreases v, 1
  {
    if r.secretKey(key) then true
    else if r.envKey(key) && v.Dict? then
      && w.Dict? && SameKeys(v.fields, w.fields)
      && forall i :: 0 <= i < |v.fields| ==>
           || (PlainScalar(r, v.fields[i].value) && PlainScalar(r, w.fields[i].value))
           || SameVisible(r, v.fields[i].value, w.fields[i].value)
    else if r.headerKey(key) && v.Dict? then w.Dict? && SameKeys(v.fields, w.fields)
    else SameVisible(r, v, w)
  }

  lemma {:induction false} SameVisibleFlags(r: Rules, v: seq<Value>, w: seq<Value>, i: nat)
    requires i < |v| == |w| && forall k :: 0 <= k < |v| ==> SameVisibleItem(r, v, k, w[k])
    ensures AfterFlag(r, v, i) == AfterFlag(r, w, i)
  {
    if i > 0 {
      SameVisibleFlags(r, v, w, i - 1);
      assert SameVisibleItem(r, v, i - 1, w[i - 1]);
    }
  }

  /** Nothing masked shows: values that differ only at masked positions redact to the same value. */
  lemma {:induction false} MaskedDoesNotShow(r: Rules, v: Value, w: Value)
    requires SameVisible(r, v, w)
    ensures Redact(r, v) == Redact(r, w)
    decreases v, 0
  {
    match v {
      case Dict(fields) =>
        forall i | 0 <= i < |fields|
          ensures RedactUnder(r, fields[i].key, fields[i].value) == RedactUnder(r, fields[i].key, w.fields[i].value)
        {
          MaskedDoesNotShowUnder(r, fields[i].key, fields[i].value, w.fields[i].value);
        }
        assert Redact(r, v).fields == Redact(r, w).fields;
      case List(items) => MaskedItemsDoNotShow(r, v, w);
      case Tuple(items) => MaskedItemsDoNotShow(r, v, w);
      case Str(_) =>
      case Other(_) =>
    }
  }

  lemma {:induction false} MaskedItemsDoNotShow(r: Rules, v: Value, w: Value)
    requires SameVisible(r, v, w) && (v.List? || v.Tuple?)
    ensures Redact(r, v) == Redact(r, w)
    decreases v, -1
  {
    forall i | 0 <= i < |v.items|
      ensures RedactItem(r, AfterFlag(r, v.items, i), v.items[i]) == RedactItem(r, AfterFlag(r, w.items, i), w.items[i])
    {
      SameVisibleFlags(r, v.items, w.items, i);
      assert SameVisibleItem(r, v.items, i, w.items[i]);
      if SameVisible(r, v.items[i], w.items[i]) {
        MaskedDoesNotShow(r, v.items[i], w.items[i]);
      }
    }
    assert Redact(r, v).items == Redact(r, w).items;
  }

  lemma {:induction false} MaskedDoesNotShowUnder(r: Rules, key: string, v: Value, w: Value)
    requires SameVisibleUnder(r, key, v, w)
    ensures RedactUnder(r, key, v) == RedactUnder(r, key, w)
    decreases v, 1
  {
    if r.secretKey(key) {
    } else if r.envKey(key) && v.Dict? {
      forall i | 0 <= i < |v.fields| ensures RedactEnv(r, v.fields[i].value) == RedactEnv(r, w.fields[i].value) {
        if SameVisible(r, v.fields[i].value, w.fields[i].value) {
          MaskedDoesNotShow(r, v.fields[i].value, w.fields[i].value);
        }
      }
      assert RedactUnder(r, key, v).fields == RedactUnder(r, key, w).fields;
    } else if r.headerKey(key) && v.Dict? {
      assert RedactUnder(r, key, v).fields == RedactUnder(r, key, w).fields;
    } else {
      MaskedDoesNotShow(r, v, w);
    }
  }

  /** Only strings are masked after a flag: a number given to a secret flag stays in the bundle. */
  lemma NumberAfterFlagShows(r: Rules, flag: string, n: int)
    requires r.secretFlag(flag)
    ensures Redact(r, List([Str(flag), Other(n)])) == List([Str(flag), Other(n)])
  {
    PairRedacted(r, Str(flag), Other(n));
  }
}
