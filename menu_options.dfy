/** The multi-select option lists of the menus (`src/menu/serve.ts`,
    `src/menu/build.ts`, `src/menu/init.ts`, `src/menu/sourcemap.ts`): each
    option's `picked` state is loaded from the extension's global state
    before the pick, and the pick is written back after it. */
module MenuOptions {
  import opened Wrappers

  /** An entry of a menu's option table: the label shown (`caption`), the CLI flag, the
      global-state key its picked state is kept under, and that state. */
  datatype MenuOption = MenuOption(caption: string, flag: string, key: string, picked: bool)

  /** The extension's global state (`context.globalState`) as far as the
      menus use it: boolean values under string keys. */
  class Memento {
    var values: map<string, bool>

    constructor(values: map<string, bool>)
      ensures this.values == values
    {
      this.values := values;
    }

    /** `get(key, fallback)`. */
    function Get(key: string, fallback: bool): (b: bool)
      reads this
      ensures key in values ==> b == values[key]
      ensures key !in values ==> b == fallback
    {
      if key in values then values[key] else fallback
    }

    /** `update(key, value)`. */
    method Update(key: string, value: bool)
      modifies this
      ensures values == old(values)[key := value]
    {
      values := values[key := value];
    }
  }

  /** An option with its picked state taken from `store`, falling back to
      the state it had. */
  function Restored(o: MenuOption, store: map<string, bool>): (r: MenuOption)
    ensures r.caption == o.caption && r.flag == o.flag && r.key == o.key
    ensures r.picked == if o.key in store then store[o.key] else o.picked
  {
    o.(picked := if o.key in store then store[o.key] else o.picked)
  }

  /** `options.forEach(o => o.picked = globalState.get(o.key, o.picked))`:
      every option's picked state is reloaded, in place. */
  method LoadPicks(options: array<MenuOption>, store: Memento)
    modifies options
    ensures forall i :: 0 <= i < options.Length ==> options[i] == Restored(old(options[i]), store.values)
  {
    var i := 0;
    while i < options.Length
      invariant 0 <= i <= options.Length
      invariant forall j :: 0 <= j < i ==> options[j] == Restored(old(options[j]), store.values)
      invariant forall j :: i <= j < options.Length ==> options[j] == old(options[j])
    {
      options[i] := Restored(options[i], store.values);
      i := i + 1;
    }
  }

  /** Whether `o` is among the chosen items (the menus compare by flag, and
      by id in the sourcemap menu; both determine the key). */
  predicate IsChosen(chosen: seq<MenuOption>, o: MenuOption) {
    exists c :: c in chosen && c.key == o.key
  }

  /** The global state after the pick: every option's key holds whether
      that option was chosen; other keys are untouched. */
  function StoredPicks(store: map<string, bool>, options: seq<MenuOption>, chosen: seq<MenuOption>): (r: map<string, bool>)
    ensures r.Keys == store.Keys + KeySet(options)
    ensures forall k :: k in store && k !in KeySet(options) ==> r[k] == store[k]
  {
    if options == [] then store
    else
      var last := options[|options| - 1];
      var init := options[..|options| - 1];
      assert KeySet(options) == KeySet(init) + {last.key} by {
        assert forall x :: x in options <==> x in init || x == last;
      }
      StoredPicks(store, init, chosen)[last.key := IsChosen(chosen, last)]
  }

  function KeySet(options: seq<MenuOption>): set<string> {
    set o | o in options :: o.key
  }

  /** With distinct keys, each option's key records whether it was chosen. */
  lemma {:induction false} StoredPickOf(store: map<string, bool>, options: seq<MenuOption>, chosen: seq<MenuOption>, i: int)
    requires 0 <= i < |options|
    requires forall a, b :: 0 <= a < b < |options| ==> options[a].key != options[b].key
    ensures StoredPicks(store, options, chosen)[options[i].key] == IsChosen(chosen, options[i])
    decreases |options|
  {
    if i < |options| - 1 {
      StoredPickOf(store, options[..|options| - 1], chosen, i);
    }
  }

  /** `options.forEach(o => globalState.update(o.key, chosen has o))`. */
  method StorePicks(options: array<MenuOption>, store: Memento, chosen: seq<MenuOption>)
    modifies store
    ensures store.values == StoredPicks(old(store.values), options[..], chosen)
  {
    var i := 0;
    while i < options.Length
      invariant 0 <= i <= options.Length
      invariant store.values == StoredPicks(old(store.values), options[..i], chosen)
    {
      assert options[..i + 1][..i] == options[..i];
      var o := options[i];
      var isChosen := exists c :: c in chosen && c.key == o.key;
      store.Update(o.key, isChosen);
      i := i + 1;
    }
    assert options[..i] == options[..];
  }

  /** Whether an option puts its flag on the command line: it is picked, or
      picks do not matter (`anyPick`), and its flag is not `skip`. */
  predicate Contributes(o: MenuOption, anyPick: bool, skip: Option<string>) {
    (anyPick || o.picked) && Some(o.flag) != skip
  }

  /** The positions from `from` on whose options contribute, scanning
      forward; `PositionsExact` states what they are. */
  function Positions(options: seq<MenuOption>, anyPick: bool, skip: Option<string>, from: nat): (ix: seq<nat>)
    requires from <= |options|
    ensures forall k :: 0 <= k < |ix| ==> from <= ix[k] < |options|
    decreases |options| - from
  {
    if from == |options| then []
    else (if Contributes(options[from], anyPick, skip) then [from] else []) + Positions(options, anyPick, skip, from + 1)
  }

  /** The positions are exactly those of the contributing options from
      `from` on, each once, in increasing order. */
  lemma PositionsExact(options: seq<MenuOption>, anyPick: bool, skip: Option<string>, from: nat)
    requires from <= |options|
    ensures forall k :: 0 <= k < |Positions(options, anyPick, skip, from)| ==>
      Contributes(options[Positions(options, anyPick, skip, from)[k]], anyPick, skip)
    ensures forall k, l :: 0 <= k < l < |Positions(options, anyPick, skip, from)| ==>
      Positions(options, anyPick, skip, from)[k] < Positions(options, anyPick, skip, from)[l]
    ensures forall j :: from <= j < |options| && Contributes(options[j], anyPick, skip) ==>
      j in Positions(options, anyPick, skip, from)
  {
    PositionsContribute(options, anyPick, skip, from);
    PositionsIncrease(options, anyPick, skip, from);
    PositionsComplete(options, anyPick, skip, from);
  }

  lemma {:induction false} PositionsContribute(options: seq<MenuOption>, anyPick: bool, skip: Option<string>, from: nat)
    requires from <= |options|
    ensures forall k :: 0 <= k < |Positions(options, anyPick, skip, from)| ==>
      Contributes(options[Positions(options, anyPick, skip, from)[k]], anyPick, skip)
    decreases |options| - from
  {
    if from < |options| {
      PositionsContribute(options, anyPick, skip, from + 1);
      var rest := Positions(options, anyPick, skip, from + 1);
      var head := if Contributes(options[from], anyPick, skip) then [from] else [];
      var ix := head + rest;
      forall k | 0 <= k < |ix| ensures Contributes(options[ix[k]], anyPick, skip) {
        if k >= |head| {
          assert ix[k] == rest[k - |head|];
        } else {
          assert head == [from] && ix[k] == from;
        }
      }
    }
  }

  lemma {:induction false} PositionsIncrease(options: seq<MenuOption>, anyPick: bool, skip: Option<string>, from: nat)
    requires from <= |options|
    ensures forall k, l :: 0 <= k < l < |Positions(options, anyPick, skip, from)| ==>
      Positions(options, anyPick, skip, from)[k] < Positions(options, anyPick, skip, from)[l]
    decreases |options| - from
  {
    if from < |options| {
      PositionsIncrease(options, anyPick, skip, from + 1);
      var rest := Positions(options, anyPick, skip, from + 1);
      var head := if Contributes(options[from], anyPick, skip) then [from] else [];
      var ix := head + rest;
      forall k, l | 0 <= k < l < |ix| ensures ix[k] < ix[l] {
        assert ix[l] == rest[l - |head|];
        assert from + 1 <= rest[l - |head|];
        if k >= |head| {
          assert ix[k] == rest[k - |head|];
        } else {
          assert ix[k] == from;
        }
      }
    }
  }

  lemma {:induction false} PositionsComplete(options: seq<MenuOption>, anyPick: bool, skip: Option<string>, from: nat)
    requires from <= |options|
    ensures forall j :: from <= j < |options| && Contributes(options[j], anyPick, skip) ==>
      j in Positions(options, anyPick, skip, from)
    decreases |options| - from
  {
    if from < |options| {
      PositionsComplete(options, anyPick, skip, from + 1);
      var rest := Positions(options, anyPick, skip, from + 1);
      var head := if Contributes(options[from], anyPick, skip) then [from] else [];
      assert Positions(options, anyPick, skip, from) == head + rest;
      forall j | from <= j < |options| && Contributes(options[j], anyPick, skip)
        ensures j in head + rest
      {
        if j == from {
          assert (head + rest)[0] == from;
        } else {
          assert j in rest;
        }
      }
    }
  }

  /** The flags of the options at the given positions, in that order. */
  function FlagsAt(options: seq<MenuOption>, ix: seq<nat>): (flags: seq<string>)
    requires forall k :: 0 <= k < |ix| ==> ix[k] < |options|
    ensures |flags| == |ix| && forall k :: 0 <= k < |ix| ==> flags[k] == options[ix[k]].flag
  {
    seq(|ix|, k requires 0 <= k < |ix| => options[ix[k]].flag)
  }

  /** One more option at the end adds its own position, if it contributes,
      after the positions of the others. */
  lemma {:induction false} PositionsSnoc(options: seq<MenuOption>, o: MenuOption, anyPick: bool, skip: Option<string>, from: nat)
    requires from <= |options|
    ensures Positions(options + [o], anyPick, skip, from)
      == Positions(options, anyPick, skip, from) + (if Contributes(o, anyPick, skip) then [|options|] else [])
    decreases |options| - from
  {
    if from < |options| {
      PositionsSnoc(options, o, anyPick, skip, from + 1);
      PositionsSnocStep(options, o, anyPick, skip, from);
    } else {
      PositionsSnocEnd(options, o, anyPick, skip);
    }
  }

  lemma PositionsSnocStep(options: seq<MenuOption>, o: MenuOption, anyPick: bool, skip: Option<string>, from: nat)
    requires from < |options|
    requires Positions(options + [o], anyPick, skip, from + 1)
      == Positions(options, anyPick, skip, from + 1) + (if Contributes(o, anyPick, skip) then [|options|] else [])
    ensures Positions(options + [o], anyPick, skip, from)
      == Positions(options, anyPick, skip, from) + (if Contributes(o, anyPick, skip) then [|options|] else [])
  {
    var longer := options + [o];
    var last := if Contributes(o, anyPick, skip) then [|options|] else [];
    var head := if Contributes(options[from], anyPick, skip) then [from] else [];
    assert longer[from] == options[from];
    assert Positions(longer, anyPick, skip, from) == head + Positions(longer, anyPick, skip, from + 1);
    assert head + (Positions(options, anyPick, skip, from + 1) + last)
      == (head + Positions(options, anyPick, skip, from + 1)) + last;
  }

  lemma PositionsSnocEnd(options: seq<MenuOption>, o: MenuOption, anyPick: bool, skip: Option<string>)
    ensures Positions(options + [o], anyPick, skip, |options|)
      == Positions(options, anyPick, skip, |options|) + (if Contributes(o, anyPick, skip) then [|options|] else [])
  {
    var longer := options + [o];
    assert longer[|options|] == o;
    assert Positions(longer, anyPick, skip, |options| + 1) == [];
  }

  /** The flags in order of the contributing options of `options + [o]`. */
  lemma FlagsAtSnoc(options: seq<MenuOption>, o: MenuOption, anyPick: bool, skip: Option<string>)
    ensures FlagsAt(options + [o], Positions(options + [o], anyPick, skip, 0))
      == FlagsAt(options, Positions(options, anyPick, skip, 0)) + (if Contributes(o, anyPick, skip) then [o.flag] else [])
  {
    PositionsSnoc(options, o, anyPick, skip, 0);
    var ix := Positions(options, anyPick, skip, 0);
    var lhs := FlagsAt(options + [o], Positions(options + [o], anyPick, skip, 0));
    var rhs := FlagsAt(options, ix) + (if Contributes(o, anyPick, skip) then [o.flag] else []);
    assert |lhs| == |rhs|;
    forall k | 0 <= k < |lhs| ensures lhs[k] == rhs[k] {
      if k < |ix| {
        assert (options + [o])[ix[k]] == options[ix[k]];
      }
    }
  }

  /** The flags of the options that are picked, in table order, leaving out
      the pseudo-flag `skip`. */
  function PickedFlags(options: seq<MenuOption>, skip: Option<string>): (flags: seq<string>)
    ensures |flags| <= |options|
    ensures forall f :: f in flags <==> exists o :: o in options && o.picked && o.flag == f && Some(f) != skip
    ensures flags == FlagsAt(options, Positions(options, false, skip, 0))
  {
    if options == [] then []
    else
      var o := options[|options| - 1];
      var init := options[..|options| - 1];
      assert forall x :: x in options <==> x in init || x == o;
      assert init + [o] == options;
      FlagsAtSnoc(init, o, false, skip);
      PickedFlags(init, skip) + (if o.picked && Some(o.flag) != skip then [o.flag] else [])
  }

  /** The flags of the chosen items, in the order they were returned,
      leaving out the pseudo-flag `skip`. */
  function ChosenFlags(chosen: seq<MenuOption>, skip: Option<string>): (flags: seq<string>)
    ensures |flags| <= |chosen|
    ensures forall f :: f in flags <==> exists o :: o in chosen && o.flag == f && Some(f) != skip
    ensures flags == FlagsAt(chosen, Positions(chosen, true, skip, 0))
  {
    if chosen == [] then []
    else
      var o := chosen[|chosen| - 1];
      var init := chosen[..|chosen| - 1];
      assert forall x :: x in chosen <==> x in init || x == o;
      assert init + [o] == chosen;
      FlagsAtSnoc(init, o, true, skip);
      ChosenFlags(init, skip) + (if Some(o.flag) != skip then [o.flag] else [])
  }

  /** Without a pseudo-flag, the chosen flags are the items' flags in order. */
  lemma ChosenFlagsAll(chosen: seq<MenuOption>)
    ensures ChosenFlags(chosen, None) == seq(|chosen|, i requires 0 <= i < |chosen| => chosen[i].flag)
  {
    FlagsAtAll(chosen);
  }

  /** The flags at the positions of all items are the items' flags. */
  lemma FlagsAtAll(chosen: seq<MenuOption>)
    ensures FlagsAt(chosen, Positions(chosen, true, None, 0)) == seq(|chosen|, i requires 0 <= i < |chosen| => chosen[i].flag)
  {
    PositionsOfAll(chosen, 0);
    var flags := FlagsAt(chosen, Positions(chosen, true, None, 0));
    var all := seq(|chosen|, i requires 0 <= i < |chosen| => chosen[i].flag);
    assert |flags| == |all|;
    forall k | 0 <= k < |all| ensures flags[k] == all[k] {
      assert Positions(chosen, true, None, 0)[k] == k;
    }
  }

  /** When every option contributes, the positions are all of them. */
  lemma {:induction false} PositionsOfAll(options: seq<MenuOption>, from: nat)
    requires from <= |options|
    ensures |Positions(options, true, None, from)| == |options| - from
    ensures forall k :: 0 <= k < |options| - from ==> Positions(options, true, None, from)[k] == from + k
    decreases |options| - from
  {
    if from < |options| {
      PositionsOfAll(options, from + 1);
      assert Contributes(options[from], true, None);
      var rest := Positions(options, true, None, from + 1);
      assert Positions(options, true, None, from) == [from] + rest;
      forall k | 0 <= k < |options| - from ensures ([from] + rest)[k] == from + k {
        if k > 0 {
          assert ([from] + rest)[k] == rest[k - 1];
        }
      }
    }
  }

  /** The global-state keys of a table, one per option. */
  predicate DistinctKeys(options: seq<MenuOption>) {
    forall a, b :: 0 <= a < b < |options| ==> options[a].key != options[b].key
  }

  /** A table as shown after loading: for each key, the stored pick. */
  function RestoredAll(options: seq<MenuOption>, store: map<string, bool>): (r: seq<MenuOption>)
    ensures |r| == |options|
    ensures forall i :: 0 <= i < |options| ==> r[i] == Restored(options[i], store)
  {
    seq(|options|, i requires 0 <= i < |options| => Restored(options[i], store))
  }

  /** Loading after storing gives every option exactly its chosen state: a
      pick is remembered for the next time the menu opens. */
  lemma PickIsRemembered(store: map<string, bool>, options: seq<MenuOption>, chosen: seq<MenuOption>)
    requires DistinctKeys(options)
    ensures forall i :: 0 <= i < |options| ==>
      RestoredAll(options, StoredPicks(store, options, chosen))[i].picked == IsChosen(chosen, options[i])
  {
    forall i | 0 <= i < |options|
      ensures RestoredAll(options, StoredPicks(store, options, chosen))[i].picked == IsChosen(chosen, options[i])
    {
      StoredPickOf(store, options, chosen, i);
    }
  }

  /** Every option is kept under `prefix` followed by its flag, so two
      options have the same key exactly when they have the same flag. */
  predicate KeyedBy(prefix: string, options: seq<MenuOption>) {
    forall i :: 0 <= i < |options| ==> options[i].key == prefix + options[i].flag
  }

  /** Whether one of `items` carries `flag`. */
  predicate HasFlag(items: seq<MenuOption>, flag: string) {
    exists c :: c in items && c.flag == flag
  }

  /** Comparing the keys of items keyed by flag is comparing their flags,
      which is how the source records a pick. */
  lemma ChosenByFlag(prefix: string, chosen: seq<MenuOption>, o: MenuOption)
    requires KeyedBy(prefix, chosen) && o.key == prefix + o.flag
    ensures IsChosen(chosen, o) <==> HasFlag(chosen, o.flag)
  {
    if IsChosen(chosen, o) {
      var c :| c in chosen && c.key == o.key;
      var i :| 0 <= i < |chosen| && chosen[i] == c;
      assert c.key == prefix + c.flag;
      assert c.flag == c.key[|prefix|..] == o.key[|prefix|..] == o.flag;
    }
    if HasFlag(chosen, o.flag) {
      var c :| c in chosen && c.flag == o.flag;
      var i :| 0 <= i < |chosen| && chosen[i] == c;
      assert c.key == prefix + c.flag;
    }
  }
}
