/** The key-binding registry: a physical key code and four modifier flags
    become a canonical binding with a string id and an equality test, raw
    keyboard events are validated into bindings, a name-to-binding table is
    derived from the code list, and `match` dispatches on a shared,
    code-keyed handler table.

    The registry exists in two copies that differ only in where the list of
    supported codes comes from, so every member here takes that list as the
    parameter `codes`. */
module KeyBinding {
  import opened Common
  import opened Text

  /** The modifier property names, in the order the id lists them. */
  const ModifierKeys: seq<string> := ["altKey", "ctrlKey", "metaKey", "shiftKey"]

  /** A ModifierBinding: all four flags present. */
  datatype Modifiers = Modifiers(altKey: bool, ctrlKey: bool, metaKey: bool, shiftKey: bool)

  const NoModifiers := Modifiers(false, false, false, false)

  /** A `Partial<ModifierBinding>`: any flag may be absent. */
  datatype PartialModifiers = PartialModifiers(
    altKey: Option<bool>, ctrlKey: Option<bool>, metaKey: Option<bool>, shiftKey: Option<bool>)

  /** The code and flags of a binding, without id. */
  datatype KeyBindingData = KeyBindingData(code: string, mods: Modifiers)

  /** A binding as `makeKeyBinding` builds it. Its `is` closure is the
      function `Is` below, applied to this binding. */
  datatype KeyBinding = KeyBinding(code: string, mods: Modifiers, id: string) {
    function Data(): KeyBindingData { KeyBindingData(code, mods) }

    /** The binding as an object: flags and id as properties, `is` a function. */
    function AsObject(): JsObject {
      map["code" := Str(code),
          "altKey" := Boolean(mods.altKey), "ctrlKey" := Boolean(mods.ctrlKey),
          "metaKey" := Boolean(mods.metaKey), "shiftKey" := Boolean(mods.shiftKey),
          "id" := Str(id), "is" := Func]
    }
  }

  // ---------------------------------------------------------------------
  // Validators
  // ---------------------------------------------------------------------

  /** `codes.includes(obj.code)`: a non-string never equals a listed code. */
  predicate IsCodeBinding(codes: seq<string>, obj: JsObject) {
    Prop(obj, "code").Str? && Prop(obj, "code").s in codes
  }

  /** Every modifier property has `typeof` boolean. */
  predicate IsModifierBinding(obj: JsObject) {
    forall k :: k in ModifierKeys ==> Prop(obj, k).Boolean?
  }

  /** `isKeyBinding`: validated code and flags, and both `is` and `id` are
      functions. */
  predicate IsKeyBinding(codes: seq<string>, obj: JsObject) {
    && IsCodeBinding(codes, obj)
    && IsModifierBinding(obj)
    && Prop(obj, "is").Func?
    && Prop(obj, "id").Func?
  }

  /** `isKeyBinding` rejects every binding that `makeKeyBinding` builds:
      their `id` is a string, not a function. */
  lemma MadeBindingsFailIsKeyBinding(codes: seq<string>, code: string, m: Option<PartialModifiers>)
    ensures !IsKeyBinding(codes, MakeKeyBinding(code, m).AsObject())
  {
  }

  /** `compare`: strict equality of the code and of each flag. */
  predicate Compare(a: KeyBindingData, b: JsObject) {
    && Prop(b, "code") == Str(a.code)
    && Prop(b, "altKey") == Boolean(a.mods.altKey)
    && Prop(b, "ctrlKey") == Boolean(a.mods.ctrlKey)
    && Prop(b, "metaKey") == Boolean(a.mods.metaKey)
    && Prop(b, "shiftKey") == Boolean(a.mods.shiftKey)
  }

  // ---------------------------------------------------------------------
  // Builders
  // ---------------------------------------------------------------------

  /** `makeModifierBinding`: all four flags are materialised; a missing
      modifiers object or a missing flag gives `false`, a given flag is
      copied. */
  function MakeModifierBinding(m: Option<PartialModifiers>): (r: Modifiers)
    ensures m.None? ==> r == NoModifiers
    ensures r.altKey <==> m.Some? && m.value.altKey == Some(true)
    ensures r.ctrlKey <==> m.Some? && m.value.ctrlKey == Some(true)
    ensures r.metaKey <==> m.Some? && m.value.metaKey == Some(true)
    ensures r.shiftKey <==> m.Some? && m.value.shiftKey == Some(true)
  {
    match m
    case None => NoModifiers
    case Some(p) =>
      Modifiers(p.altKey.GetOr(false), p.ctrlKey.GetOr(false),
                p.metaKey.GetOr(false), p.shiftKey.GetOr(false))
  }

  function MakeKeyBindingData(code: string, m: Option<PartialModifiers>): KeyBindingData {
    KeyBindingData(code, MakeModifierBinding(m))
  }

  /** One slot of the id: `-<flagName>` when the flag is set, else empty. */
  function Slot(flag: bool, name: string): string {
    if flag then "-" + name else ""
  }

  /** `modifierKeys.map(m => kbd[m] ? "-" + m : "")`. */
  function Slots(mods: Modifiers): seq<string> {
    [Slot(mods.altKey, ModifierKeys[0]), Slot(mods.ctrlKey, ModifierKeys[1]),
     Slot(mods.metaKey, ModifierKeys[2]), Slot(mods.shiftKey, ModifierKeys[3])]
  }

  /** The id: the code followed by the template-literal rendering of the slot
      array, that is, the four slots joined by commas. */
  function Id(code: string, mods: Modifiers): (r: string)
    ensures r == (code + Slot(mods.altKey, "altKey"))
                 + ("," + (Slot(mods.ctrlKey, "ctrlKey")
                 + ("," + (Slot(mods.metaKey, "metaKey")
                 + ("," + Slot(mods.shiftKey, "shiftKey"))))))
  {
    var a, b, c, d := Slot(mods.altKey, "altKey"), Slot(mods.ctrlKey, "ctrlKey"),
                      Slot(mods.metaKey, "metaKey"), Slot(mods.shiftKey, "shiftKey");
    assert Slots(mods) == [a, b, c, d];
    Join4(a, b, c, d);
    assert code + (a + ("," + (b + ("," + (c + ("," + d)))))) == (code + a) + ("," + (b + ("," + (c + ("," + d)))));
    code + JoinComma(Slots(mods))
  }

  lemma Join4(a: string, b: string, c: string, d: string)
    ensures JoinComma([a, b, c, d]) == a + ("," + (b + ("," + (c + ("," + d)))))
  {
    var s := [a, b, c, d];
    assert s[1..] == [b, c, d];
    assert s[1..][1..] == [c, d];
    assert s[1..][1..][1..] == [d];
    assert JoinComma([c, d]) == c + "," + d;
    assert c + "," + d == c + ("," + d);
    assert JoinComma([b, c, d]) == b + "," + JoinComma([c, d]);
    assert b + "," + JoinComma([c, d]) == b + ("," + JoinComma([c, d]));
    assert JoinComma(s) == a + "," + JoinComma([b, c, d]);
    assert a + "," + JoinComma([b, c, d]) == a + ("," + JoinComma([b, c, d]));
  }

  /** The no-modifier id is the code followed by three empty slots. */
  lemma IdNoModifiers(code: string)
    ensures Id(code, NoModifiers) == code + ",,,"
  {
  }

  /** `makeKeyBinding`. */
  function MakeKeyBinding(code: string, m: Option<PartialModifiers>): (r: KeyBinding)
    ensures r.code == code && r.mods == MakeModifierBinding(m)
    ensures Canonical(r)
  {
    var kbd := MakeKeyBindingData(code, m);
    KeyBinding(kbd.code, kbd.mods, Id(code, kbd.mods))
  }

  /** The id of the binding is the one its code and flags determine. */
  predicate Canonical(kb: KeyBinding) {
    kb.id == Id(kb.code, kb.mods)
  }

  /** The `is` closure of binding `kb`, applied to `t`. It accepts exactly
      the targets with a supported code equal to `kb`'s and the same four
      boolean flags. */
  predicate Is(codes: seq<string>, kb: KeyBinding, t: JsObject)
    ensures Is(codes, kb, t) <==> kb.code in codes && Compare(kb.Data(), t)
  {
    IsCodeBinding(codes, t) && IsModifierBinding(t) && Compare(kb.Data(), t)
  }

  // ---------------------------------------------------------------------
  // Shape and injectivity of ids
  // ---------------------------------------------------------------------

  /** Shift alone fills only the last slot. */
  lemma IdShiftOnly(code: string)
    ensures Id(code, Modifiers(false, false, false, true)) == code + ",,,-shiftKey"
  {
  }

  /** A code for which the id format cannot be ambiguous: it has no comma and
      does not itself end in the alt slot. */
  predicate SafeCode(c: string) {
    ',' !in c && !EndsWith(c, "-altKey")
  }

  predicate SafeCodes(codes: seq<string>) {
    forall c :: c in codes ==> SafeCode(c)
  }

  /** A code without `-` is safe when it has no comma. */
  lemma DashFreeIsSafe(c: string)
    requires ',' !in c && '-' !in c
    ensures SafeCode(c)
  {
    if |c| >= 7 {
      assert c[|c| - 7] in c;
      assert c[|c| - 7..][0] == c[|c| - 7];
    }
  }

  /** Comma-freeness alone does not make ids injective. */
  lemma CommaFreeIsNotEnough()
    ensures Id("X-altKey", NoModifiers) == Id("X", Modifiers(true, false, false, false))
  {
  }

  lemma FirstComma(a: string, r: string)
    requires ',' !in a
    ensures forall j :: 0 <= j < |a| ==> (a + ("," + r))[j] != ','
    ensures (a + ("," + r))[|a|] == ','
  {
  }

  lemma CommaSplit(a: string, r: string, a': string, r': string)
    requires ',' !in a && ',' !in a'
    requires a + ("," + r) == a' + ("," + r')
    ensures a == a' && r == r'
  {
    FirstComma(a, r);
    FirstComma(a', r');
    assert |a| == |a'|;
    var s := a + ("," + r);
    assert a == s[..|a|] && a' == s[..|a'|];
    assert r == s[|a| + 1..] && r' == s[|a'| + 1..];
  }

  lemma SlotLength(b: bool, name: string)
    ensures |Slot(b, name)| == if b then |name| + 1 else 0
  {
  }

  /** Over a safe code, the alt slot shows whether alt is set. */
  lemma AltSlotVisible(c: string, b: bool)
    requires SafeCode(c)
    ensures EndsWith(c + Slot(b, "altKey"), "-altKey") <==> b
  {
    if b {
      assert (c + "-altKey")[|c|..] == "-altKey";
    } else {
      assert c + Slot(b, "altKey") == c;
    }
  }

  lemma CodeAndAltSlot(c: string, b: bool, c': string, b': bool)
    requires SafeCode(c) && SafeCode(c')
    requires c + Slot(b, "altKey") == c' + Slot(b', "altKey")
    ensures c == c' && b == b'
  {
    AltSlotVisible(c, b);
    AltSlotVisible(c', b');
    SlotLength(b, "altKey");
    SlotLength(b', "altKey");
    var s := c + Slot(b, "altKey");
    assert c == s[..|c|] && c' == s[..|c'|];
  }

  lemma ModifierNamesCommaFree()
    ensures ',' !in "altKey" && ',' !in "ctrlKey" && ',' !in "metaKey"
  {
  }

  /** A comma-free code followed by a slot of a comma-free name has no
      comma. */
  lemma CodeSlotCommaFree(c: string, b: bool, name: string)
    requires ',' !in c && ',' !in name
    ensures ',' !in c + Slot(b, name)
    ensures "" + Slot(b, name) == Slot(b, name)
  {
    if b {
      var s := c + ("-" + name);
      forall k | 0 <= k < |s|
        ensures s[k] != ','
      {
        if k < |c| {
          assert s[k] == c[k];
        } else if k > |c| {
          assert s[k] == name[k - |c| - 1];
        } else {
          assert s[k] == '-';
        }
      }
    } else {
      assert c + Slot(b, name) == c;
    }
  }

  /** Equal ids of safe codes agree slot by slot. */
  lemma IdSlots(c: string, m: Modifiers, c': string, m': Modifiers)
    requires SafeCode(c) && SafeCode(c') && Id(c, m) == Id(c', m')
    ensures c + Slot(m.altKey, "altKey") == c' + Slot(m'.altKey, "altKey")
    ensures Slot(m.ctrlKey, "ctrlKey") == Slot(m'.ctrlKey, "ctrlKey")
    ensures Slot(m.metaKey, "metaKey") == Slot(m'.metaKey, "metaKey")
    ensures Slot(m.shiftKey, "shiftKey") == Slot(m'.shiftKey, "shiftKey")
  {
    var a, a' := c + Slot(m.altKey, "altKey"), c' + Slot(m'.altKey, "altKey");
    var x, x' := Slot(m.ctrlKey, "ctrlKey"), Slot(m'.ctrlKey, "ctrlKey");
    var y, y' := Slot(m.metaKey, "metaKey"), Slot(m'.metaKey, "metaKey");
    var z, z' := Slot(m.shiftKey, "shiftKey"), Slot(m'.shiftKey, "shiftKey");
    ModifierNamesCommaFree();
    CodeSlotCommaFree(c, m.altKey, "altKey");
    CodeSlotCommaFree(c', m'.altKey, "altKey");
    CodeSlotCommaFree("", m.ctrlKey, "ctrlKey");
    CodeSlotCommaFree("", m'.ctrlKey, "ctrlKey");
    CodeSlotCommaFree("", m.metaKey, "metaKey");
    CodeSlotCommaFree("", m'.metaKey, "metaKey");
    CommaSplit(a, x + ("," + (y + ("," + z))), a', x' + ("," + (y' + ("," + z'))));
    CommaSplit(x, y + ("," + z), x', y' + ("," + z'));
    CommaSplit(y, z, y', z');
  }

  /** A slot tells whether its flag is set. */
  lemma SlotFlag(b: bool, b': bool, name: string)
    requires Slot(b, name) == Slot(b', name)
    ensures b == b'
  {
    SlotLength(b, name);
    SlotLength(b', name);
  }

  /** The id determines the code and the four flags, for safe codes. */
  lemma IdInjective(c: string, m: Modifiers, c': string, m': Modifiers)
    requires SafeCode(c) && SafeCode(c')
    ensures Id(c, m) == Id(c', m') <==> c == c' && m == m'
  {
    if Id(c, m) == Id(c', m') {
      IdSlots(c, m, c', m');
      CodeAndAltSlot(c, m.altKey, c', m'.altKey);
      SlotFlag(m.ctrlKey, m'.ctrlKey, "ctrlKey");
      SlotFlag(m.metaKey, m'.metaKey, "metaKey");
      SlotFlag(m.shiftKey, m'.shiftKey, "shiftKey");
    }
  }

  /** Over a safe code list, distinct (code, flags) pairs have distinct ids. */
  lemma IdInjectiveOverCodes(codes: seq<string>, c: string, m: Modifiers, c': string, m': Modifiers)
    requires SafeCodes(codes) && c in codes && c' in codes
    ensures Id(c, m) == Id(c', m') <==> c == c' && m == m'
  {
    IdInjective(c, m, c', m');
  }

  /** Every id contains a comma, so no id is ever a comma-free code. */
  lemma IdHasComma(code: string, mods: Modifiers)
    ensures ',' in Id(code, mods)
  {
    var s := Id(code, mods);
    var k := |code + Slot(mods.altKey, "altKey")|;
    assert s[k] == ',';
  }

  /** For bindings built by `makeKeyBinding` over safe codes, `a.is(b)` holds
      exactly when the two ids are equal. */
  lemma IsIffSameId(codes: seq<string>, a: KeyBinding, b: KeyBinding)
    requires SafeCodes(codes) && a.code in codes && b.code in codes
    requires Canonical(a) && Canonical(b)
    ensures Is(codes, a, b.AsObject()) <==> a.id == b.id
  {
    IdInjective(a.code, a.mods, b.code, b.mods);
    if a.id == b.id {
      assert a.mods == b.mods;
    }
  }

  /** `compare` against a binding's object is equality of code and flags. */
  lemma CompareObject(a: KeyBindingData, b: KeyBinding)
    ensures Compare(a, b.AsObject()) <==> a == b.Data()
  {
  }

  /** `is` is reflexive on supported bindings and symmetric. */
  lemma IsReflexiveSymmetric(codes: seq<string>, a: KeyBinding, b: KeyBinding)
    ensures a.code in codes ==> Is(codes, a, a.AsObject())
    ensures Is(codes, a, b.AsObject()) <==> Is(codes, b, a.AsObject())
  {
    CompareObject(a.Data(), a);
    CompareObject(a.Data(), b);
    CompareObject(b.Data(), a);
  }

  // ---------------------------------------------------------------------
  // Events
  // ---------------------------------------------------------------------

  /** The flag an event property contributes to `makeModifierBinding`. */
  function FlagOf(v: JsValue): Option<bool> {
    if v.Boolean? then Some(v.b) else None
  }

  function PartialOf(i: JsObject): PartialModifiers {
    PartialModifiers(FlagOf(Prop(i, "altKey")), FlagOf(Prop(i, "ctrlKey")),
                     FlagOf(Prop(i, "metaKey")), FlagOf(Prop(i, "shiftKey")))
  }

  /** `keyBindingFrom`: no binding unless the code is supported and every
      flag is a boolean; otherwise the binding of exactly the event's code
      and flags. */
  function KeyBindingFrom(codes: seq<string>, i: JsObject): (r: Option<KeyBinding>)
    ensures r.None? <==> !IsCodeBinding(codes, i) || !IsModifierBinding(i)
    ensures r.Some? ==> && r.value.code == Prop(i, "code").s && r.value.code in codes
                        && Compare(r.value.Data(), i)
                        && Canonical(r.value)
  {
    if IsCodeBinding(codes, i) && IsModifierBinding(i) then
      assert forall k :: k in ModifierKeys ==> Prop(i, k).Boolean?;
      assert Prop(i, ModifierKeys[0]).Boolean? && Prop(i, ModifierKeys[1]).Boolean?;
      assert Prop(i, ModifierKeys[2]).Boolean? && Prop(i, ModifierKeys[3]).Boolean?;
      Some(MakeKeyBinding(Prop(i, "code").s, Some(PartialOf(i))))
    else
      None
  }

  // ---------------------------------------------------------------------
  // The name table
  // ---------------------------------------------------------------------

  /** The property name of a code in `keys`: the first "Key" removed, then
      the first "Digit". */
  function Name(code: string): string {
    ReplaceFirst(ReplaceFirst(code, "Key", ""), "Digit", "")
  }

  /** `keys`: `Object.assign({}, ...)` over the codes in order, each code
      under the property `name(code)`, so a later code whose name collides
      with an earlier one overwrites it. Every entry is the flag-free binding
      of a listed code, under that code's name. The registry's table is
      `Keys(codes, Name)`. */
  function Keys(codes: seq<string>, name: string -> string): (r: map<string, KeyBinding>)
    ensures forall n :: n in r ==>
              r[n].code in codes && name(r[n].code) == n && r[n] == MakeKeyBinding(r[n].code, None)
    decreases |codes|
  {
    if |codes| == 0 then map[]
    else
      var init, last := codes[..|codes| - 1], codes[|codes| - 1];
      assert codes == init + [last];
      Keys(init, name)[name(last) := MakeKeyBinding(last, None)]
  }

  /** `meta`, `command` and `window` are the `keys` table itself. */
  function Meta(codes: seq<string>): (r: map<string, KeyBinding>)
    ensures forall n :: n in r ==> !r[n].mods.metaKey
  {
    Keys(codes, Name)
  }

  /** Every code's name is in `keys`. */
  lemma {:induction false} KeysCoverCodes(codes: seq<string>, name: string -> string, c: string)
    requires c in codes
    ensures name(c) in Keys(codes, name)
    decreases |codes|
  {
    var init, last := codes[..|codes| - 1], codes[|codes| - 1];
    assert codes == init + [last];
    if c != last {
      KeysCoverCodes(init, name, c);
    }
  }

  /** Every name in `keys` is the name of a code. */
  lemma KeysNamesListed(codes: seq<string>, name: string -> string, names: seq<string>)
    requires |codes| == |names|
    requires forall i :: 0 <= i < |codes| ==> name(codes[i]) == names[i]
    ensures forall n :: n in Keys(codes, name) ==> n in names
  {
    var r := Keys(codes, name);
    forall n | n in r
      ensures n in names
    {
      var i :| 0 <= i < |codes| && codes[i] == r[n].code;
    }
  }

  /** Every name of a code is in `keys`. */
  lemma NameInKeys(codes: seq<string>, name: string -> string, names: seq<string>)
    requires |codes| == |names|
    requires forall i :: 0 <= i < |codes| ==> name(codes[i]) == names[i]
    ensures forall n :: n in names ==> n in Keys(codes, name)
  {
    forall n | n in names
      ensures n in Keys(codes, name)
    {
      var i :| 0 <= i < |names| && names[i] == n;
      KeysCoverCodes(codes, name, codes[i]);
    }
  }

  /** The names of `keys` are exactly the names of the codes. */
  lemma KeysDomain(codes: seq<string>, name: string -> string, names: seq<string>)
    requires |codes| == |names|
    requires forall i :: 0 <= i < |codes| ==> name(codes[i]) == names[i]
    ensures forall n :: n in Keys(codes, name) <==> n in names
  {
    KeysNamesListed(codes, name, names);
    NameInKeys(codes, name, names);
  }

  /** When no two codes share a name, each code's entry is its own binding. */
  lemma KeysOnePerCode(codes: seq<string>, name: string -> string, c: string)
    requires forall c1, c2 :: c1 in codes && c2 in codes && name(c1) == name(c2) ==> c1 == c2
    requires c in codes
    ensures name(c) in Keys(codes, name) && Keys(codes, name)[name(c)] == MakeKeyBinding(c, None)
  {
    KeysCoverCodes(codes, name, c);
    var kb := Keys(codes, name)[name(c)];
    assert kb.code in codes && name(kb.code) == name(c);
    IdNoModifiers(c);
  }

  // ---------------------------------------------------------------------
  // match
  // ---------------------------------------------------------------------

  /** A handler; `Noop` is the default `() => {}`. */
  datatype Action = Noop | Handler(name: string)

  /** The module-level `defaultMatch` table that `match` merges into. */
  class Matcher {
    const codes: seq<string>
    var table: map<string, Action>

    /** Every supported code has a handler. */
    ghost predicate Valid()
      reads this
    {
      forall c :: c in codes ==> c in table
    }

    /** `defaultMatch`: a no-op for each supported code. */
    constructor (codes: seq<string>)
      ensures this.codes == codes && Valid()
      ensures table.Keys == set c | c in codes
      ensures forall c :: c in table ==> table[c] == Noop
    {
      this.codes := codes;
      table := map c | c in codes :: Noop;
    }

    /** `match(m)(t)`: `Object.assign(defaultMatch, m)` merges `m` into the
        shared table in place (later entries win), then the handler stored
        under `t.code` (not `t.id`) is called. `None` is the call of a
        missing entry, a TypeError, which cannot happen for a supported
        code. */
    method Match(m: map<string, Action>, t: KeyBinding) returns (called: Option<Action>)
      requires Valid()
      modifies this
      ensures Valid()
      ensures table == old(table) + m
      ensures called == if t.code in table then Some(table[t.code]) else None
      ensures t.code in codes ==> called.Some?
    {
      table := table + m;
      if t.code in table {
        called := Some(table[t.code]);
      } else {
        called := None;
      }
    }
  }
}
