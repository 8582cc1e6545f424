/** The dispatch step of `useKeyBinding`: on every new key event, validate
    it, prevent the browser default when the action table has an entry for
    the binding's id, and hand the binding to `match`.

    The registry this step imports (`Actions`, `KB`, `match`) is not part of
    this model; the visible registry of the `KeyBinding` module stands in for
    it: its `keyBindingFrom` over a comma-free code list, and its `match`,
    which looks handlers up by code. */
module Dispatch {
  import opened Common
  import opened KeyBinding

  /** What the step decides for one event: the binding it recognised and
      whether `preventDefault` is called. */
  datatype Decision = Decision(binding: KeyBinding, prevent: bool)

  /** The guarded part of the effect: no event or an invalid one means
      nothing happens; otherwise the default is prevented exactly when the
      table has an entry under the binding's id. */
  function Decide(codes: seq<string>, keyPress: Option<KeyPress>, actions: map<string, Action>): (d: Option<Decision>)
    ensures keyPress.None? ==> d.None?
    ensures keyPress.Some? ==> (d.None? <==> keyPress.value.code !in codes)
    ensures d.Some? ==>
      && d.value.binding.code == keyPress.value.code && d.value.binding.code in codes
      && d.value.binding.mods == Modifiers(keyPress.value.altKey, keyPress.value.ctrlKey, keyPress.value.metaKey, keyPress.value.shiftKey)
      && d.value.binding.id == Id(keyPress.value.code, d.value.binding.mods)
      && (d.value.prevent <==> d.value.binding.id in actions)
  {
    match keyPress
    case None => None
    case Some(e) =>
      assert IsModifierBinding(e.AsObject());
      match KeyBindingFrom(codes, e.AsObject())
      case None => None
      case Some(kb) => Some(Decision(kb, kb.id in actions))
  }

  /** A table keyed only by binding ids, each of which contains a comma. */
  predicate IdKeyed(actions: map<string, Action>) {
    forall k :: k in actions ==> ',' in k
  }

  /** Merging an id-keyed table never replaces the handler of a comma-free
      code: `match` keeps calling what the table held under that code. */
  lemma IdKeyedMergeKeepsCodes(table: map<string, Action>, actions: map<string, Action>, code: string)
    requires IdKeyed(actions) && ',' !in code && code in table
    ensures code in table + actions && (table + actions)[code] == table[code]
  {
    assert code !in actions;
  }

  /** A table keyed by ids of bindings is id-keyed. */
  lemma IdsMakeIdKeyed(actions: map<string, Action>)
    requires forall k :: k in actions ==> exists c, m :: k == Id(c, m)
    ensures IdKeyed(actions)
  {
    forall k | k in actions
      ensures ',' in k
    {
      var c, m :| k == Id(c, m);
      IdHasComma(c, m);
    }
  }

  /** The effect of the hook, with the event's side effects kept as logs:
      the stamps of the events whose default was prevented and the actions
      that were run. `last` is the dependency the effect was last run with. */
  class Dispatcher {
    const codes: seq<string>
    const matcher: Matcher
    var last: Option<KeyPress>
    var prevented: seq<nat>
    var invoked: seq<Action>

    ghost predicate Valid()
      reads this, matcher
    {
      matcher.codes == codes && matcher.Valid()
    }

    /** Every instance of the hook shares the one module-level `match`
        table, `defaultMatch`, which earlier merges may already have
        changed: the instance starts from that table as it stands. */
    constructor (codes: seq<string>, shared: Matcher)
      requires shared.Valid() && shared.codes == codes
      ensures Valid() && matcher == shared
      ensures this.codes == codes && last.None? && prevented == [] && invoked == []
      ensures matcher.table == old(shared.table)
    {
      this.codes := codes;
      matcher := shared;
      last := None;
      prevented := [];
      invoked := [];
    }

    /** The body of the effect (lines 11-22 of the hook). */
    method Effect(keyPress: Option<KeyPress>, actions: map<string, Action>)
      requires Valid()
      modifies this`prevented, this`invoked, matcher
      ensures Valid()
      ensures Decide(codes, keyPress, actions).None? ==>
        && prevented == old(prevented) && invoked == old(invoked)
        && matcher.table == old(matcher.table)
      ensures Decide(codes, keyPress, actions).Some? ==>
        var d := Decide(codes, keyPress, actions).value;
        && prevented == old(prevented) + (if d.prevent then [keyPress.value.stamp] else [])
        && matcher.table == old(matcher.table) + actions
        && d.binding.code in matcher.table
        && invoked == old(invoked) + [matcher.table[d.binding.code]]
    {
      var d := Decide(codes, keyPress, actions);
      if d.None? {
        return;
      }
      if d.value.prevent {
        prevented := prevented + [keyPress.value.stamp];
      }
      var called := matcher.Match(actions, d.value.binding);
      invoked := invoked + [called.value];
    }

    /** One render of the hook: the effect runs only when the key event
        differs from the one it last ran with. */
    method Render(keyPress: Option<KeyPress>, actions: map<string, Action>)
      requires Valid()
      modifies this, matcher
      ensures Valid() && last == keyPress
      ensures keyPress == old(last) ==>
        && prevented == old(prevented) && invoked == old(invoked)
        && matcher.table == old(matcher.table)
      ensures keyPress != old(last) && Decide(codes, keyPress, actions).None? ==>
        && prevented == old(prevented) && invoked == old(invoked)
        && matcher.table == old(matcher.table)
      ensures keyPress != old(last) && Decide(codes, keyPress, actions).Some? ==>
        var d := Decide(codes, keyPress, actions).value;
        && prevented == old(prevented) + (if d.prevent then [keyPress.value.stamp] else [])
        && matcher.table == old(matcher.table) + actions
        && invoked == old(invoked) + [matcher.table[d.binding.code]]
    {
      if keyPress != last {
        Effect(keyPress, actions);
      }
      last := keyPress;
    }
  }

  /** Two instances of the hook over the one shared table: what the first
      merges in during its effect is the table the second starts from. */
  method SecondInstanceSeesMerge(codes: seq<string>, shared: Matcher, keyPress: Option<KeyPress>, actions: map<string, Action>)
      returns (second: Dispatcher)
    requires shared.Valid() && shared.codes == codes
    requires Decide(codes, keyPress, actions).Some?
    modifies shared
    ensures fresh(second) && second.Valid() && second.matcher == shared
    ensures second.matcher.table == old(shared.table) + actions
  {
    var first := new Dispatcher(codes, shared);
    first.Effect(keyPress, actions);
    second := new Dispatcher(codes, shared);
  }

  /** Under the stand-in `match`, a handler registered under an id is never
      the one run: the step runs whatever the table held under the code. */
  lemma IdHandlersNeverRun(codes: seq<string>, table: map<string, Action>, keyPress: Option<KeyPress>, actions: map<string, Action>)
    requires forall c :: c in codes ==> ',' !in c && c in table
    requires forall k :: k in actions ==> exists c, m :: k == Id(c, m)
    requires Decide(codes, keyPress, actions).Some?
    ensures (table + actions)[Decide(codes, keyPress, actions).value.binding.code]
            == table[Decide(codes, keyPress, actions).value.binding.code]
  {
    var code := Decide(codes, keyPress, actions).value.binding.code;
    IdsMakeIdKeyed(actions);
    IdKeyedMergeKeepsCodes(table, actions, code);
  }

  /** A table keyed by a plain code: the step never prevents the default of
      a press of that key, with or without modifiers, since an id is never a
      bare code; yet `match` runs the handler registered under the code for
      every such press. */
  lemma CodeKeyedHandlerIgnoresModifiers(codes: seq<string>, table: map<string, Action>, e: KeyPress, h: Action)
    requires e.code in codes && ',' !in e.code
    ensures Decide(codes, Some(e), map[e.code := h]).Some?
    ensures !Decide(codes, Some(e), map[e.code := h]).value.prevent
    ensures (table + map[e.code := h])[Decide(codes, Some(e), map[e.code := h]).value.binding.code] == h
  {
    var d := Decide(codes, Some(e), map[e.code := h]).value;
    IdHasComma(e.code, d.binding.mods);
  }
}
