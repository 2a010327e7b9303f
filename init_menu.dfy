/** The init menu (`src/menu/init.ts`): the project name and its
    `.project.json` suffix, the template list (filtered, ordered by the
    priority comparator and labelled), the option table with its
    remembered picks, and the `flag=true|false` options of the `init`
    call. The input boxes, the quick picks and the template directory's
    listing are inputs. */
module InitMenu {
  import opened Wrappers
  import opened Strings
  import opened Util
  import opened MenuOptions
  import opened Argon

  // ---- The project name

  /** `getProjectName()`: the typed name, rejected when empty or cancelled. */
  function GetProjectName(typed: Option<string>): (r: Outcome<string>)
    ensures r.Returned? || r.Cancelled?
    ensures r.Cancelled? <==> !Truthy(typed)
    ensures r.Returned? ==> r.value == typed.value && r.value != ""
  {
    if !Truthy(typed) then Cancelled else Returned(typed.value)
  }

  /** The name with `.project.json` appended unless it ends with it. */
  function ProjectFileName(name: string): (file: string)
    ensures EndsWith(file, ProjectSuffix)
    ensures StartsWith(file, name)
    ensures EndsWith(name, ProjectSuffix) ==> file == name
    ensures !EndsWith(name, ProjectSuffix) ==> file == name + ProjectSuffix
  {
    if EndsWith(name, ProjectSuffix) then name
    else
      var file := name + ProjectSuffix;
      assert file[|name|..] == ProjectSuffix && file[..|name|] == name;
      file
  }

  /** Suffixing twice is suffixing once. */
  lemma ProjectFileNameIdempotent(name: string)
    ensures ProjectFileName(ProjectFileName(name)) == ProjectFileName(name)
  {
  }

  // ---- The templates

  /** `priority.indexOf(name)`: the first index, or -1. */
  function IndexIn(names: seq<string>, name: string): (i: int)
    ensures -1 <= i < |names|
    ensures i == -1 <==> name !in names
    ensures i >= 0 ==> names[i] == name && forall j :: 0 <= j < i ==> names[j] != name
  {
    if names == [] then -1
    else if names[0] == name then 0
    else
      var i := IndexIn(names[1..], name);
      if i == -1 then -1 else i + 1
  }

  const Priority: seq<string> := ["place", "plugin", "package", "model", "quick"]

  /** The comparator handed to `sort`, for a priority list: an unlisted
      first name is always greater; otherwise an unlisted second name is
      always smaller; otherwise the difference of the priority indices. */
  function Compare(priority: seq<string>, a: string, b: string): int {
    var index1 := IndexIn(priority, a);
    var index2 := IndexIn(priority, b);
    if index1 == -1 then 1 else if index2 == -1 then -1 else index1 - index2
  }

  /** Where a name belongs: its priority index when listed, after all
      listed names otherwise. */
  function Rank(priority: seq<string>, name: string): (r: nat)
    ensures r <= |priority|
    ensures r < |priority| <==> name in priority
  {
    var i := IndexIn(priority, name);
    if i == -1 then |priority| else i
  }

  /** Listed names come before unlisted ones, and two listed names are
      ordered by priority, in both argument orders. */
  lemma CompareAgreesWithRank(priority: seq<string>, a: string, b: string)
    requires a in priority || b in priority
    ensures Compare(priority, a, b) < 0 <==> Rank(priority, a) < Rank(priority, b)
    ensures Compare(priority, a, b) > 0 <==> Rank(priority, a) > Rank(priority, b)
  {
  }

  /** The comparator is not antisymmetric: for two unlisted names each is
      said to be greater than the other. */
  lemma CompareNotAntisymmetric(priority: seq<string>, a: string, b: string)
    requires a !in priority && b !in priority
    ensures Compare(priority, a, b) == 1 && Compare(priority, b, a) == 1
  {
  }

  /** The directory listing without `.DS_Store`, in listing order. */
  function Templates(listing: seq<string>): (ts: seq<string>)
    ensures forall t :: t in ts <==> t in listing && t != ".DS_Store"
    ensures |ts| <= |listing|
  {
    if listing == [] then []
    else
      var init := listing[..|listing| - 1];
      var last := listing[|listing| - 1];
      assert forall t :: t in listing <==> t in init || t == last;
      Templates(init) + (if last != ".DS_Store" then [last] else [])
  }

  /** One step of a stable insertion sort driven by `Compare`: `name` moves
      left past every name the comparator puts after it. */
  function Insert(priority: seq<string>, sorted: seq<string>, name: string): seq<string>
  {
    if sorted == [] then [name]
    else
      var last := sorted[|sorted| - 1];
      if Compare(priority, last, name) > 0 then Insert(priority, sorted[..|sorted| - 1], name) + [last]
      else sorted + [name]
  }

  /** The names sorted with `Compare`, inserting them in listing order. */
  function Sort(priority: seq<string>, names: seq<string>): seq<string>
  {
    if names == [] then []
    else Insert(priority, Sort(priority, names[..|names| - 1]), names[|names| - 1])
  }

  predicate RankSorted(priority: seq<string>, s: seq<string>) {
    forall i, j :: 0 <= i < j < |s| ==> Rank(priority, s[i]) <= Rank(priority, s[j])
  }

  lemma {:induction false} InsertPermutes(priority: seq<string>, sorted: seq<string>, name: string)
    ensures multiset(Insert(priority, sorted, name)) == multiset(sorted) + multiset{name}
    decreases |sorted|
  {
    if sorted != [] {
      var init := sorted[..|sorted| - 1];
      var last := sorted[|sorted| - 1];
      assert sorted == init + [last];
      if Compare(priority, last, name) > 0 {
        InsertPermutes(priority, init, name);
      }
    }
  }

  /** What one comparison says about ranks, listed or not. */
  lemma CompareBoundsRank(priority: seq<string>, a: string, b: string)
    ensures Compare(priority, a, b) > 0 ==> Rank(priority, b) <= Rank(priority, a)
    ensures Compare(priority, a, b) <= 0 ==> Rank(priority, a) <= Rank(priority, b)
  {
  }

  /** Inserting keeps every name within a rank bound that the name and the
      sorted names respect. */
  lemma InsertBounded(priority: seq<string>, sorted: seq<string>, name: string, bound: nat)
    requires forall k :: 0 <= k < |sorted| ==> Rank(priority, sorted[k]) <= bound
    requires Rank(priority, name) <= bound
    ensures forall k :: 0 <= k < |Insert(priority, sorted, name)| ==> Rank(priority, Insert(priority, sorted, name)[k]) <= bound
  {
    var inserted := Insert(priority, sorted, name);
    InsertPermutes(priority, sorted, name);
    forall k | 0 <= k < |inserted|
      ensures Rank(priority, inserted[k]) <= bound
    {
      assert inserted[k] in multiset(inserted);
      if inserted[k] != name {
        assert inserted[k] in multiset(sorted);
        var m :| 0 <= m < |sorted| && sorted[m] == inserted[k];
      }
    }
  }

  /** A rank-sorted list stays sorted when a name of the highest rank so
      far is appended. */
  lemma AppendHighest(priority: seq<string>, s: seq<string>, last: string)
    requires RankSorted(priority, s)
    requires forall k :: 0 <= k < |s| ==> Rank(priority, s[k]) <= Rank(priority, last)
    ensures RankSorted(priority, s + [last])
  {
  }

  lemma {:induction false} InsertKeepsRankOrder(priority: seq<string>, sorted: seq<string>, name: string)
    requires RankSorted(priority, sorted)
    ensures RankSorted(priority, Insert(priority, sorted, name))
    decreases |sorted|
  {
    if sorted != [] {
      var init := sorted[..|sorted| - 1];
      var last := sorted[|sorted| - 1];
      CompareBoundsRank(priority, last, name);
      if Compare(priority, last, name) > 0 {
        InsertKeepsRankOrder(priority, init, name);
        InsertBounded(priority, init, name, Rank(priority, last));
        AppendHighest(priority, Insert(priority, init, name), last);
      } else {
        AppendHighest(priority, sorted, name);
      }
    }
  }

  /** The sort returns the same names, each as often as listed. */
  lemma {:induction false} SortPermutes(priority: seq<string>, names: seq<string>)
    ensures multiset(Sort(priority, names)) == multiset(names)
    decreases |names|
  {
    if names != [] {
      var init := names[..|names| - 1];
      SortPermutes(priority, init);
      InsertPermutes(priority, Sort(priority, init), names[|names| - 1]);
      assert names == init + [names[|names| - 1]];
    }
  }

  /** The sort orders names by rank. */
  lemma {:induction false} SortOrdersByRank(priority: seq<string>, names: seq<string>)
    ensures RankSorted(priority, Sort(priority, names))
    decreases |names|
  {
    if names != [] {
      SortOrdersByRank(priority, names[..|names| - 1]);
      InsertKeepsRankOrder(priority, Sort(priority, names[..|names| - 1]), names[|names| - 1]);
    }
  }

  /** The sorted names: the listed ones first, in priority order, then the
      others; nothing is lost or added. */
  lemma SortedByPriority(priority: seq<string>, names: seq<string>)
    ensures multiset(Sort(priority, names)) == multiset(names)
    ensures var s := Sort(priority, names);
      forall i, j :: 0 <= i < j < |s| && s[j] in priority ==> s[i] in priority && IndexIn(priority, s[i]) <= IndexIn(priority, s[j])
  {
    SortPermutes(priority, names);
    SortOrdersByRank(priority, names);
  }

  /** The templates in the order offered. */
  function Sorted(listing: seq<string>): seq<string> {
    Sort(Priority, Templates(listing))
  }

  /** A quick-pick entry for a template. */
  datatype TemplateItem = TemplateItem(name: string, description: string, id: string)

  /** `c.toUpperCase()` for ASCII letters. */
  function UpperAscii(c: char): (u: char)
    ensures 'a' <= c <= 'z' ==> u as int == c as int - 32
    ensures !('a' <= c <= 'z') ==> u == c
  {
    if 'a' <= c <= 'z' then (c as int - 32) as char else c
  }

  const QuickDescription: string := "(Recommended for beginners)"

  /** The entry of a template: its name with the first character upper
      cased, a description for `quick` only, and the template as its id. */
  function ItemOf(template: string): (item: TemplateItem)
    ensures item.id == template
    ensures |item.name| == |template|
    ensures template != "" ==> item.name[1..] == template[1..]
    ensures template != "" ==> item.name[0] == UpperAscii(template[0])
    ensures item.description != "" <==> template == "quick"
  {
    TemplateItem(
      if template == "" then "" else [UpperAscii(template[0])] + template[1..],
      if template == "quick" then QuickDescription else "",
      template)
  }

  /** The entries shown, in sorted order. */
  function Items(listing: seq<string>): (items: seq<TemplateItem>)
    ensures var s := Sorted(listing);
      |items| == |s| && forall i :: 0 <= i < |s| ==> items[i] == ItemOf(s[i])
  {
    var s := Sorted(listing);
    seq(|s|, i requires 0 <= i < |s| => ItemOf(s[i]))
  }

  /** A sorted name is one of the names. */
  lemma SortedFrom(priority: seq<string>, names: seq<string>, i: int)
    requires 0 <= i < |Sort(priority, names)|
    ensures Sort(priority, names)[i] in names
  {
    SortPermutes(priority, names);
    assert Sort(priority, names)[i] in multiset(Sort(priority, names));
  }

  /** When any name is listed, the first sorted name is listed. */
  lemma ListedFirst(priority: seq<string>, names: seq<string>, t: string)
    requires t in names && t in priority
    ensures |Sort(priority, names)| >= 1 && Sort(priority, names)[0] in priority
  {
    SortedByPriority(priority, names);
    var s := Sort(priority, names);
    assert t in multiset(s);
    var j :| 0 <= j < |s| && s[j] == t;
    if j > 0 {
      assert s[0] in priority;
    }
  }

  /** `.DS_Store` is never offered, and the first entry is a listed
      template whenever the listing holds one. */
  lemma ItemsOffered(listing: seq<string>, t: string)
    requires t in listing && t in Priority && t != ".DS_Store"
    ensures |Items(listing)| >= 1 && Items(listing)[0].id in Priority
    ensures forall i :: 0 <= i < |Items(listing)| ==> Items(listing)[i].id != ".DS_Store"
  {
    var ts := Templates(listing);
    ListedFirst(Priority, ts, t);
    forall i | 0 <= i < |Items(listing)|
      ensures Items(listing)[i].id != ".DS_Store"
    {
      SortedFrom(Priority, ts, i);
    }
  }

  /** `getProjectTemplate()`: the id of the picked entry, nothing when the
      pick is cancelled, and the listing's failure when the directory
      cannot be read. */
  function GetProjectTemplate(listing: Outcome<seq<string>>, pick: Option<nat>): (r: Outcome<string>)
    ensures !listing.Returned? ==> r == Stopped(listing)
    ensures listing.Returned? ==> (r.Returned? <==> pick.Some? && pick.value < |Items(listing.value)|)
    ensures r.Returned? ==> r.value == Items(listing.value)[pick.value].id && r.value != ".DS_Store"
  {
    if !listing.Returned? then Stopped(listing)
    else
      var items := Items(listing.value);
      if pick.Some? && pick.value < |items| then
        assert items[pick.value].id != ".DS_Store" by {
          SortedFrom(Priority, Templates(listing.value), pick.value);
        }
        Returned(items[pick.value].id)
      else Cancelled
  }

  // ---- The options

  /** The option table as the extension ships it; each option's picked
      state is kept under `Init` followed by its flag. */
  const Table: seq<MenuOption> := [
    MenuOption("Include docs", "--docs", "Init--docs", true),
    MenuOption("Configure Git", "--git", "Init--git", true),
    MenuOption("Setup Wally", "--wally", "Init--wally", false),
    MenuOption("Setup selene", "--selene", "Init--selene", false),
    MenuOption("Use roblox-ts", "--ts", "Init--ts", false)
  ]

  /** `getProjectOptions()`: loads the picks, and resolves with the chosen
      flags after recording whether each option was chosen. */
  method GetProjectOptions(options: array<MenuOption>, store: Memento, chosen: Option<seq<MenuOption>>)
    returns (r: Outcome<seq<string>>)
    modifies options, store
    ensures options[..] == RestoredAll(old(options[..]), old(store.values))
    ensures chosen.None? ==> r == Cancelled && store.values == old(store.values)
    ensures chosen.Some? ==> r == Returned(ChosenFlags(chosen.value, None))
    ensures chosen.Some? ==> store.values == StoredPicks(old(store.values), options[..], chosen.value)
  {
    LoadPicks(options, store);
    if chosen.None? {
      return Cancelled;
    }
    StorePicks(options, store, chosen.value);
    r := Returned(ChosenFlags(chosen.value, None));
  }

  function BoolText(b: bool): string {
    if b then "true" else "false"
  }

  /** One `flag=true|false` string per option, in table order. */
  function OptionTexts(options: seq<MenuOption>, selected: seq<string>): (texts: seq<string>)
    ensures |texts| == |options|
  {
    if options == [] then []
    else
      var o := options[|options| - 1];
      OptionTexts(options[..|options| - 1], selected) + [o.flag + "=" + BoolText(o.flag in selected)]
  }

  /** The `init` options built by pushing one string per option. */
  method BuildOptions(options: array<MenuOption>, selected: seq<string>) returns (texts: seq<string>)
    ensures texts == OptionTexts(options[..], selected)
  {
    texts := [];
    var i := 0;
    while i < options.Length
      invariant 0 <= i <= options.Length
      invariant texts == OptionTexts(options[..i], selected)
    {
      assert options[..i + 1][..i] == options[..i];
      texts := texts + [options[i].flag + "=" + BoolText(options[i].flag in selected)];
      i := i + 1;
    }
    assert options[..i] == options[..];
  }

  /** Each string reads back as the option's flag and whether it was
      selected, for flags without `=`. */
  lemma {:induction false} OptionTextsReadBack(options: seq<MenuOption>, selected: seq<string>, i: int)
    requires 0 <= i < |options|
    requires '=' !in options[i].flag
    ensures Split(OptionTexts(options, selected)[i], '=') == [options[i].flag, BoolText(options[i].flag in selected)]
    decreases |options|
  {
    if i < |options| - 1 {
      OptionTextsReadBack(options[..|options| - 1], selected, i);
    } else {
      var o := options[i];
      var b := BoolText(o.flag in selected);
      assert '=' !in b;
      assert o.flag + "=" + b == o.flag + ['='] + b;
      SplitOnePiece(o.flag, '=', b);
    }
  }

  /** `run(context)`: asks for the name, the template and the options,
      starts `init` on the suffixed name without waiting for it, and
      resolves with that name. */
  method Run(options: array<MenuOption>, store: Memento, typedName: Option<string>,
             listing: Outcome<seq<string>>, pick: Option<nat>, chosen: Option<seq<MenuOption>>)
    returns (call: Option<Invocation>, r: Outcome<string>)
    modifies options, store
    ensures options[..] == if Truthy(typedName) && GetProjectTemplate(listing, pick).Returned?
      then RestoredAll(old(options[..]), old(store.values)) else old(options[..])
    ensures store.values == if Truthy(typedName) && GetProjectTemplate(listing, pick).Returned? && chosen.Some?
      then StoredPicks(old(store.values), RestoredAll(old(options[..]), old(store.values)), chosen.value) else old(store.values)
    ensures call.None? <==> !r.Returned?
    ensures !Truthy(typedName) ==> r == Cancelled
    ensures Truthy(typedName) && !GetProjectTemplate(listing, pick).Returned? ==> r == Stopped(GetProjectTemplate(listing, pick))
    ensures Truthy(typedName) && GetProjectTemplate(listing, pick).Returned? && chosen.None? ==> r == Cancelled
    ensures r.Returned? ==> (Truthy(typedName) && GetProjectTemplate(listing, pick).Returned? && chosen.Some? &&
      r.value == ProjectFileName(typedName.value) &&
      call.value == InitCall(r.value, GetProjectTemplate(listing, pick).value,
        OptionTexts(RestoredAll(old(options[..]), old(store.values)), ChosenFlags(chosen.value, None))))
    ensures Truthy(typedName) && GetProjectTemplate(listing, pick).Returned? && chosen.Some? ==> r.Returned?
  {
    var name := GetProjectName(typedName);
    if !name.Returned? {
      return None, Cancelled;
    }
    var template := GetProjectTemplate(listing, pick);
    if !template.Returned? {
      return None, Stopped(template);
    }
    var selected := GetProjectOptions(options, store, chosen);
    if !selected.Returned? {
      return None, Cancelled;
    }
    var texts := BuildOptions(options, selected.value);
    var file := name.value;
    if !EndsWith(file, ProjectSuffix) {
      file := file + ProjectSuffix;
    }
    call := Some(InitCall(file, template.value, texts));
    r := Returned(file);
  }
}
