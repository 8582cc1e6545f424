/** The table of learned bindings kept by `useKeyBinding(s)`: records
    `{key, code, target}` that tie a pressed key to a target, with `put`,
    lookups and deletions by code and by target, and the effect that learns
    the next key press for a pending target. The three copies differ only
    in when a press is committed and in what they expose; one class models
    them, parameterised by the commit rule. */
module LearnedBindings {
  import opened Common

  datatype Learned<T> = Learned(key: string, code: string, target: T)

  /** `list.filter(x => x.code !== code)`. */
  function WithoutCode<T>(list: seq<Learned<T>>, code: string): (r: seq<Learned<T>>)
    ensures forall x <- r :: x in list && x.code != code
    ensures forall x <- list :: x.code != code ==> x in r
    ensures |r| <= |list|
  {
    if |list| == 0 then []
    else (if list[0].code != code then [list[0]] else []) + WithoutCode(list[1..], code)
  }

  /** `list.filter(x => x.target !== target)`. */
  function WithoutTarget<T(==)>(list: seq<Learned<T>>, target: T): (r: seq<Learned<T>>)
    ensures forall x <- r :: x in list && x.target != target
    ensures forall x <- list :: x.target != target ==> x in r
    ensures |r| <= |list|
  {
    if |list| == 0 then []
    else (if list[0].target != target then [list[0]] else []) + WithoutTarget(list[1..], target)
  }

  /** The records that differ from `(code, target)` in both fields, in one
      pass and in their original order: the independent reading of the two
      filters of `put`. */
  function Survivors<T(==)>(list: seq<Learned<T>>, code: string, target: T): (r: seq<Learned<T>>)
    ensures forall x <- r :: x in list && x.code != code && x.target != target
  {
    if |list| == 0 then []
    else (if list[0].code != code && list[0].target != target then [list[0]] else [])
         + Survivors(list[1..], code, target)
  }

  /** `put(key, code, target)`: drop the records with that code, then those
      with that target, then append the new record. */
  function Put<T(==)>(list: seq<Learned<T>>, key: string, code: string, target: T): (r: seq<Learned<T>>)
    ensures |r| > 0 && r[|r| - 1] == Learned(key, code, target)
    ensures forall x <- r :: x == Learned(key, code, target) || (x in list && x.code != code && x.target != target)
    ensures forall x <- list :: x.code != code && x.target != target ==> x in r
  {
    WithoutTarget(WithoutCode(list, code), target) + [Learned(key, code, target)]
  }

  /** `list.find(x => x.code === code)`. */
  function FindByCode<T>(list: seq<Learned<T>>, code: string): (r: Option<Learned<T>>)
    ensures r.None? <==> forall x <- list :: x.code != code
    ensures r.Some? ==> r.value in list && r.value.code == code
  {
    if |list| == 0 then None
    else if list[0].code == code then Some(list[0])
    else FindByCode(list[1..], code)
  }

  /** The record `find` returns is the first with that code. */
  lemma {:induction false} FindByCodeFirst<T>(list: seq<Learned<T>>, code: string, i: nat)
    requires i < |list| && list[i].code == code
    ensures FindByCode(list, code).Some?
    ensures exists k :: 0 <= k <= i && list[k] == FindByCode(list, code).value
                        && forall j :: 0 <= j < k ==> list[j].code != code
  {
    if list[0].code != code {
      var t := list[1..];
      assert FindByCode(list, code) == FindByCode(t, code);
      assert i > 0 && t[i - 1] == list[i];
      FindByCodeFirst(t, code, i - 1);
      var k :| 0 <= k <= i - 1 && t[k] == FindByCode(t, code).value
               && forall j :: 0 <= j < k ==> t[j].code != code;
      assert list[k + 1] == t[k];
      forall j | 0 <= j < k + 1
        ensures list[j].code != code
      {
        if j > 0 {
          assert list[j] == t[j - 1];
        }
      }
    }
  }

  /** `list.find(x => x.target === target)`. */
  function FindByTarget<T(==)>(list: seq<Learned<T>>, target: T): (r: Option<Learned<T>>)
    ensures r.None? <==> forall x <- list :: x.target != target
    ensures r.Some? ==> r.value in list && r.value.target == target
  {
    if |list| == 0 then None
    else if list[0].target == target then Some(list[0])
    else FindByTarget(list[1..], target)
  }

  /** The record `find` returns is the first with that target. */
  lemma {:induction false} FindByTargetFirst<T>(list: seq<Learned<T>>, target: T, i: nat)
    requires i < |list| && list[i].target == target
    ensures FindByTarget(list, target).Some?
    ensures exists k :: 0 <= k <= i && list[k] == FindByTarget(list, target).value
                        && forall j :: 0 <= j < k ==> list[j].target != target
  {
    if list[0].target != target {
      var t := list[1..];
      assert FindByTarget(list, target) == FindByTarget(t, target);
      assert i > 0 && t[i - 1] == list[i];
      FindByTargetFirst(t, target, i - 1);
      var k :| 0 <= k <= i - 1 && t[k] == FindByTarget(t, target).value
               && forall j :: 0 <= j < k ==> t[j].target != target;
      assert list[k + 1] == t[k];
      forall j | 0 <= j < k + 1
        ensures list[j].target != target
      {
        if j > 0 {
          assert list[j] == t[j - 1];
        }
      }
    }
  }

  /** At most one record per code and at most one per target. */
  ghost predicate Unique<T>(list: seq<Learned<T>>) {
    forall i, j :: 0 <= i < j < |list| ==> list[i].code != list[j].code && list[i].target != list[j].target
  }

  // ---------------------------------------------------------------------
  // Properties of put and the deletions
  // ---------------------------------------------------------------------

  /** The two filters of `put` keep exactly the survivors, in order. */
  lemma {:induction false} FiltersAreSurvivors<T>(list: seq<Learned<T>>, code: string, target: T)
    ensures WithoutTarget(WithoutCode(list, code), target) == Survivors(list, code, target)
  {
    if |list| > 0 {
      FiltersAreSurvivors(list[1..], code, target);
      var rest := WithoutCode(list[1..], code);
      if list[0].code != code {
        assert WithoutCode(list, code) == [list[0]] + rest;
        WithoutTargetCons(list[0], rest, target);
      } else {
        assert WithoutCode(list, code) == rest;
      }
    }
  }

  /** Filtering a list with a head filters the head, then the rest. */
  lemma WithoutTargetCons<T>(x: Learned<T>, rest: seq<Learned<T>>, target: T)
    ensures WithoutTarget([x] + rest, target) == (if x.target != target then [x] else []) + WithoutTarget(rest, target)
  {
    assert ([x] + rest)[0] == x;
    assert ([x] + rest)[1..] == rest;
  }

  /** `put` keeps the records unrelated to the new one, in their original
      relative order, and puts the new record after them. */
  lemma PutKeepsOrder<T>(list: seq<Learned<T>>, key: string, code: string, target: T)
    ensures Put(list, key, code, target) == Survivors(list, code, target) + [Learned(key, code, target)]
  {
    FiltersAreSurvivors(list, code, target);
  }

  /** The rest of a unique list is unique and differs from its head. */
  lemma UniqueTail<T>(list: seq<Learned<T>>)
    requires Unique(list) && |list| > 0
    ensures Unique(list[1..])
    ensures forall y <- list[1..] :: y.code != list[0].code && y.target != list[0].target
  {
    forall i, j | 0 <= i < j < |list[1..]|
      ensures list[1..][i].code != list[1..][j].code && list[1..][i].target != list[1..][j].target
    {
      assert list[1..][i] == list[i + 1] && list[1..][j] == list[j + 1];
    }
    forall y | y in list[1..]
      ensures y.code != list[0].code && y.target != list[0].target
    {
      var k :| 0 <= k < |list[1..]| && list[1..][k] == y;
      assert list[k + 1] == y;
    }
  }

  /** A record that differs from every record of a unique list in code and
      in target can go in front of it. */
  lemma UniqueCons<T>(x: Learned<T>, rest: seq<Learned<T>>)
    requires Unique(rest)
    requires forall y <- rest :: y.code != x.code && y.target != x.target
    ensures Unique([x] + rest)
  {
    var r := [x] + rest;
    forall i, j | 0 <= i < j < |r|
      ensures r[i].code != r[j].code && r[i].target != r[j].target
    {
      assert r[j] == rest[j - 1];
      if i > 0 {
        assert r[i] == rest[i - 1];
      }
    }
  }

  /** Survivors of a filter inherit uniqueness. */
  lemma {:induction false} SurvivorsUnique<T>(list: seq<Learned<T>>, code: string, target: T)
    requires Unique(list)
    ensures Unique(Survivors(list, code, target))
  {
    if |list| > 0 {
      UniqueTail(list);
      SurvivorsUnique(list[1..], code, target);
      if list[0].code != code && list[0].target != target {
        UniqueCons(list[0], Survivors(list[1..], code, target));
      }
    }
  }

  /** `put` keeps the invariant of one record per code and per target. */
  lemma PutPreservesUnique<T>(list: seq<Learned<T>>, key: string, code: string, target: T)
    requires Unique(list)
    ensures Unique(Put(list, key, code, target))
  {
    PutKeepsOrder(list, key, code, target);
    SurvivorsUnique(list, code, target);
    var s := Survivors(list, code, target);
    var r := Put(list, key, code, target);
    forall i, j | 0 <= i < j < |r|
      ensures r[i].code != r[j].code && r[i].target != r[j].target
    {
      if j == |r| - 1 {
        assert r[i] in r && r[i] != r[j];
      }
    }
  }

  /** After `put`, each lookup finds the new record. */
  lemma PutThenFind<T>(list: seq<Learned<T>>, key: string, code: string, target: T)
    ensures FindByCode(Put(list, key, code, target), code) == Some(Learned(key, code, target))
    ensures FindByTarget(Put(list, key, code, target), target) == Some(Learned(key, code, target))
  {
    var r := Put(list, key, code, target);
    var x := FindByCode(r, code).value;
    assert x in r;
    var y := FindByTarget(r, target).value;
    assert y in r;
  }

  /** Deleting by code drops exactly the records with that code and keeps
      the invariant. */
  lemma DeleteByCodeExact<T>(list: seq<Learned<T>>, code: string)
    ensures FindByCode(WithoutCode(list, code), code).None?
    ensures forall x :: x in WithoutCode(list, code) <==> x in list && x.code != code
    ensures Unique(list) ==> Unique(WithoutCode(list, code))
  {
    if Unique(list) {
      WithoutCodeUnique(list, code);
    }
  }

  lemma {:induction false} WithoutCodeUnique<T>(list: seq<Learned<T>>, code: string)
    requires Unique(list)
    ensures Unique(WithoutCode(list, code))
  {
    if |list| > 0 {
      UniqueTail(list);
      WithoutCodeUnique(list[1..], code);
      if list[0].code != code {
        UniqueCons(list[0], WithoutCode(list[1..], code));
      }
    }
  }

  /** Deleting by target drops exactly the records with that target and
      keeps the invariant. */
  lemma DeleteByTargetExact<T>(list: seq<Learned<T>>, target: T)
    ensures FindByTarget(WithoutTarget(list, target), target).None?
    ensures forall x :: x in WithoutTarget(list, target) <==> x in list && x.target != target
    ensures Unique(list) ==> Unique(WithoutTarget(list, target))
  {
    if Unique(list) {
      WithoutTargetUnique(list, target);
    }
  }

  lemma {:induction false} WithoutTargetUnique<T>(list: seq<Learned<T>>, target: T)
    requires Unique(list)
    ensures Unique(WithoutTarget(list, target))
  {
    if |list| > 0 {
      UniqueTail(list);
      WithoutTargetUnique(list[1..], target);
      if list[0].target != target {
        UniqueCons(list[0], WithoutTarget(list[1..], target));
      }
    }
  }

  // ---------------------------------------------------------------------
  // Learning the next key press
  // ---------------------------------------------------------------------

  /** When a pending target takes the next press. */
  datatype CommitRule =
    | AnyPress       // src/useKeyBinding.ts, src/keybinding.ts
    | UnmodifiedOnly // packages/app/src/keybinding.ts

  /** The effect's guard: a truthy target is pending, there is a press, and
      the press passes the commit rule. */
  predicate Commits<T>(rule: CommitRule, truthy: T -> bool, target: Option<T>, keyPress: Option<KeyPress>) {
    && target.Some? && truthy(target.value)
    && keyPress.Some?
    && (rule == UnmodifiedOnly ==> keyPress.value.Unmodified())
  }

  /** The bindings and pending target after the effect has run once. */
  function Learn<T(==)>(rule: CommitRule, truthy: T -> bool, list: seq<Learned<T>>, target: Option<T>, keyPress: Option<KeyPress>): (r: (seq<Learned<T>>, Option<T>))
    ensures Commits(rule, truthy, target, keyPress) ==>
      r == (Put(list, keyPress.value.key, keyPress.value.code, target.value), None)
    ensures !Commits(rule, truthy, target, keyPress) ==> r == (list, target)
  {
    if Commits(rule, truthy, target, keyPress) then
      (Put(list, keyPress.value.key, keyPress.value.code, target.value), None)
    else (list, target)
  }

  /** With no pending target, or a falsy one, no press changes anything. */
  lemma NoTargetNoChange<T>(rule: CommitRule, truthy: T -> bool, list: seq<Learned<T>>, target: Option<T>, p: Option<KeyPress>)
    requires target.None? || !truthy(target.value)
    ensures Learn(rule, truthy, list, target, p) == (list, target)
  {
  }

  /** Right after a commit no target is pending, so the next press binds
      nothing until a target is set again. */
  lemma SecondPressAfterCommit<T>(rule: CommitRule, truthy: T -> bool, list: seq<Learned<T>>, target: Option<T>, p: Option<KeyPress>, q: Option<KeyPress>)
    requires Commits(rule, truthy, target, p)
    ensures Learn(rule, truthy, list, target, p).1.None?
    ensures var (l1, t1) := Learn(rule, truthy, list, target, p);
            Learn(rule, truthy, l1, t1, q) == (l1, t1)
  {
  }

  /** The commit-on-unmodified variant ignores a modified press entirely. */
  lemma ModifiedPressIgnored<T>(truthy: T -> bool, list: seq<Learned<T>>, target: Option<T>, e: KeyPress)
    requires !e.Unmodified()
    ensures Learn(UnmodifiedOnly, truthy, list, target, Some(e)) == (list, target)
  {
  }

  /** A committed press is bound to the pending target and found under
      both its code and that target, and the table stays unique. */
  lemma CommitBindsTarget<T>(rule: CommitRule, truthy: T -> bool, list: seq<Learned<T>>, t: T, e: KeyPress)
    requires truthy(t) && (rule == UnmodifiedOnly ==> e.Unmodified())
    requires Unique(list)
    ensures Learn(rule, truthy, list, Some(t), Some(e)).1.None?
    ensures FindByCode(Learn(rule, truthy, list, Some(t), Some(e)).0, e.code) == Some(Learned(e.key, e.code, t))
    ensures FindByTarget(Learn(rule, truthy, list, Some(t), Some(e)).0, t) == Some(Learned(e.key, e.code, t))
    ensures Unique(Learn(rule, truthy, list, Some(t), Some(e)).0)
  {
    PutThenFind(list, e.key, e.code, t);
    PutPreservesUnique(list, e.key, e.code, t);
  }

  /** The hook's state cells: the learned records, the pending target, and
      the key event the learning effect last ran with. `truthy` is
      JavaScript truthiness on targets. */
  class Learner<T(==)> {
    const rule: CommitRule
    const truthy: T -> bool
    var bindings: seq<Learned<T>>
    var target: Option<T>
    var last: Option<KeyPress>

    constructor (rule: CommitRule, truthy: T -> bool)
      ensures this.rule == rule && this.truthy == truthy
      ensures bindings == [] && target.None? && last.None?
    {
      this.rule := rule;
      this.truthy := truthy;
      bindings := [];
      target := None;
      last := None;
    }

    /** `setTarget`: arm (or disarm) learning. */
    method SetTarget(t: Option<T>)
      modifies this`target
      ensures target == t
    {
      target := t;
    }

    /** `setKeyBindings`, exposed by the two copies that return the list. */
    method SetBindings(list: seq<Learned<T>>)
      modifies this`bindings
      ensures bindings == list
    {
      bindings := list;
    }

    /** `put(key, code, target)`. */
    method PutBinding(key: string, code: string, t: T)
      modifies this`bindings
      ensures bindings == Put(old(bindings), key, code, t)
      ensures Unique(old(bindings)) ==> Unique(bindings)
    {
      bindings := WithoutTarget(WithoutCode(bindings, code), t) + [Learned(key, code, t)];
      if Unique(old(bindings)) {
        PutPreservesUnique(old(bindings), key, code, t);
      }
    }

    /** `byCode.get(code)`. */
    function GetByCode(code: string): (r: Option<Learned<T>>)
      reads this
      ensures r == FindByCode(bindings, code)
    {
      FindByCode(bindings, code)
    }

    /** `byTarget.get(target)`. */
    function GetByTarget(t: T): (r: Option<Learned<T>>)
      reads this
      ensures r == FindByTarget(bindings, t)
    {
      FindByTarget(bindings, t)
    }

    /** `byCode.delete(code)`. */
    method DeleteByCode(code: string)
      modifies this`bindings
      ensures bindings == WithoutCode(old(bindings), code)
      ensures Unique(old(bindings)) ==> Unique(bindings)
    {
      DeleteByCodeExact(bindings, code);
      bindings := WithoutCode(bindings, code);
    }

    /** `byTarget.delete(target)`. */
    method DeleteByTarget(t: T)
      modifies this`bindings
      ensures bindings == WithoutTarget(old(bindings), t)
      ensures Unique(old(bindings)) ==> Unique(bindings)
    {
      DeleteByTargetExact(bindings, t);
      bindings := WithoutTarget(bindings, t);
    }

    /** The learning effect: commit the press to the pending target and
        disarm, when the guard holds. */
    method LearnEffect(keyPress: Option<KeyPress>)
      modifies this`bindings, this`target
      ensures (bindings, target) == Learn(rule, truthy, old(bindings), old(target), keyPress)
      ensures Unique(old(bindings)) ==> Unique(bindings)
    {
      if target.Some? && truthy(target.value) && keyPress.Some?
         && (rule == UnmodifiedOnly ==> keyPress.value.Unmodified())
      {
        PutBinding(keyPress.value.key, keyPress.value.code, target.value);
        target := None;
      }
    }

    /** One render: the effect runs only when the key event changed. */
    method Render(keyPress: Option<KeyPress>)
      modifies this`bindings, this`target, this`last
      ensures last == keyPress
      ensures keyPress == old(last) ==> bindings == old(bindings) && target == old(target)
      ensures keyPress != old(last) ==>
        (bindings, target) == Learn(rule, truthy, old(bindings), old(target), keyPress)
      ensures Unique(old(bindings)) ==> Unique(bindings)
    {
      if keyPress != last {
        LearnEffect(keyPress);
      }
      last := keyPress;
    }
  }
}
