// The template/character picker.  Both revisions' Sidebar components
// (sparkify-meme-generator/src/components/Sidebar.tsx and
// src/components/Sidebar.tsx) compute the same things and are modelled once:
// three case-insensitive substring filters over the imported catalog
// constants, a count badge and an empty-state branch per section, and an
// item grid that highlights the selected entry and dispatches clicks.
// `toLowerCase` is modelled on ASCII letters only.

module Sidebar {
  import opened MemeTypes
  import Catalog

  function LowerChar(c: char): char
  {
    if 'A' <= c <= 'Z' then (c as int + 32) as char else c
  }

  function Lower(s: string): (r: string)
    ensures |r| == |s|
    ensures forall i | 0 <= i < |s| :: r[i] == LowerChar(s[i])
  {
    seq(|s|, i requires 0 <= i < |s| => LowerChar(s[i]))
  }

  /** Lowering twice is lowering once. */
  lemma LowerIdempotent(s: string)
    ensures Lower(Lower(s)) == Lower(s)
  {
    assert forall i | 0 <= i < |s| :: Lower(Lower(s))[i] == Lower(s)[i];
  }

  predicate OccursAt(s: string, t: string, i: int)
  {
    0 <= i && i + |t| <= |s| && s[i..i + |t|] == t
  }

  /** `s.includes(t)`: scan for the first position where `t` occurs. */
  function Includes(s: string, t: string): bool
    decreases |s|
  {
    if |t| > |s| then false
    else if s[..|t|] == t then true
    else Includes(s[1..], t)
  }

  /** The scan finds `t` exactly when it occurs somewhere in `s`. */
  lemma {:induction false} IncludesIffOccurs(s: string, t: string)
    ensures Includes(s, t) <==> exists i :: OccursAt(s, t, i)
    decreases |s|
  {
    if |t| > |s| {
      assert forall i :: !OccursAt(s, t, i);
    } else if s[..|t|] == t {
      assert OccursAt(s, t, 0);
    } else {
      IncludesIffOccurs(s[1..], t);
      forall i | OccursAt(s, t, i) ensures i >= 1 && OccursAt(s[1..], t, i - 1) {
        assert s[1..][i - 1..i - 1 + |t|] == s[i..i + |t|];
      }
      forall i | OccursAt(s[1..], t, i) ensures OccursAt(s, t, i + 1) {
        assert s[1..][i..i + |t|] == s[i + 1..i + 1 + |t|];
      }
    }
  }

  /** The empty term occurs in every name. */
  lemma IncludesEmpty(s: string)
    ensures Includes(s, "")
  {
    assert s[..0] == "";
  }

  /** `name.toLowerCase().includes(searchTerm.toLowerCase())` */
  predicate Matches(name: string, term: string)
  {
    Includes(Lower(name), Lower(term))
  }

  /** `items.filter(item => Matches(item.name, term))` */
  function FilterByName<T(==,!new)>(items: seq<T>, name: T -> string, term: string): (r: seq<T>)
    ensures |r| <= |items|
    ensures forall x :: x in r <==> x in items && Matches(name(x), term)
  {
    if items == [] then []
    else
      assert items == [items[0]] + items[1..];
      (if Matches(name(items[0]), term) then [items[0]] else []) + FilterByName(items[1..], name, term)
  }

  /** The filter keeps the surviving entries in catalog order: it
      distributes over concatenation. */
  lemma {:induction false} FilterAppend<T(!new)>(a: seq<T>, b: seq<T>, name: T -> string, term: string)
    ensures FilterByName(a + b, name, term) == FilterByName(a, name, term) + FilterByName(b, name, term)
    decreases |a|
  {
    if a == [] {
      assert a + b == b;
    } else {
      assert (a + b)[1..] == a[1..] + b;
      FilterAppend(a[1..], b, name, term);
    }
  }

  /** An empty search term shows the whole list. */
  lemma {:induction false} FilterEmptyTerm<T(!new)>(items: seq<T>, name: T -> string)
    ensures FilterByName(items, name, "") == items
    decreases |items|
  {
    if items != [] {
      IncludesEmpty(Lower(name(items[0])));
      assert Lower("") == "";
      FilterEmptyTerm(items[1..], name);
      assert items == [items[0]] + items[1..];
    }
  }

  /** Two search terms that lower-case alike give the same result. */
  lemma {:induction false} FilterSameLowering<T(!new)>(items: seq<T>, name: T -> string, t1: string, t2: string)
    requires Lower(t1) == Lower(t2)
    ensures FilterByName(items, name, t1) == FilterByName(items, name, t2)
    decreases |items|
  {
    if items != [] {
      FilterSameLowering(items[1..], name, t1, t2);
    }
  }

  /** In particular, the case of the search term does not matter. */
  lemma FilterIgnoresTermCase<T(!new)>(items: seq<T>, name: T -> string, term: string)
    ensures FilterByName(items, name, Lower(term)) == FilterByName(items, name, term)
  {
    LowerIdempotent(term);
    FilterSameLowering(items, name, Lower(term), term);
  }

  function TemplateName(t: MemeTemplate): string { t.name }
  function CharacterName(c: SparkyCharacter): string { c.name }

  /** An entry of an item grid: `items` is `any[]` in the source. */
  datatype CatalogItem = TemplateItem(template: MemeTemplate) | CharacterItem(character: SparkyCharacter)

  function ItemId(item: CatalogItem): string
  {
    match item
    case TemplateItem(t) => t.id
    case CharacterItem(c) => c.id
  }

  /** The `type` prop of ItemGrid. */
  datatype GridKind = BackgroundGrid | MemeGrid | SparkyGrid

  /** The `selected` class of a grid cell. */
  function IsSelected(kind: GridKind, item: CatalogItem, selectedTemplate: Option<MemeTemplate>,
                      selectedCharacter: Option<SparkyCharacter>): (b: bool)
    ensures kind == SparkyGrid ==>
      (b <==> selectedCharacter.Some? && selectedCharacter.value.id == ItemId(item))
    ensures kind != SparkyGrid ==>
      (b <==> selectedTemplate.Some? && selectedTemplate.value.id == ItemId(item))
  {
    if kind == SparkyGrid then selectedCharacter.Some? && selectedCharacter.value.id == ItemId(item)
    else selectedTemplate.Some? && selectedTemplate.value.id == ItemId(item)
  }

  /** Which App handler a click on a cell calls, and with what. */
  datatype Dispatch = ToCharacterSelect(item: CatalogItem) | ToTemplateSelect(item: CatalogItem)

  function OnItemClick(kind: GridKind, item: CatalogItem): (d: Dispatch)
    ensures d.item == item
    ensures d.ToCharacterSelect? <==> kind == SparkyGrid
  {
    if kind == SparkyGrid then ToCharacterSelect(item) else ToTemplateSelect(item)
  }

  datatype Cell = Cell(item: CatalogItem, selected: bool)

  function ItemGrid(kind: GridKind, items: seq<CatalogItem>, selectedTemplate: Option<MemeTemplate>,
                    selectedCharacter: Option<SparkyCharacter>): (cells: seq<Cell>)
    ensures |cells| == |items|
    ensures forall i | 0 <= i < |items| ::
      cells[i].item == items[i] && cells[i].selected == IsSelected(kind, items[i], selectedTemplate, selectedCharacter)
  {
    seq(|items|, i requires 0 <= i < |items| =>
      Cell(items[i], IsSelected(kind, items[i], selectedTemplate, selectedCharacter)))
  }

  datatype SectionBody = Grid(cells: seq<Cell>) | NoneFound(message: string)

  /** A section: the count badge, then the grid or the empty-state message. */
  datatype Section = Section(badge: nat, body: SectionBody)

  function MakeSection(kind: GridKind, items: seq<CatalogItem>, emptyMessage: string,
                       selectedTemplate: Option<MemeTemplate>,
                       selectedCharacter: Option<SparkyCharacter>): (s: Section)
    ensures s.badge == |items|
    ensures s.body.NoneFound? <==> |items| == 0
    ensures s.body.NoneFound? ==> s.body.message == emptyMessage
    ensures s.body.Grid? ==> s.body.cells == ItemGrid(kind, items, selectedTemplate, selectedCharacter)
  {
    Section(|items|, if |items| > 0 then Grid(ItemGrid(kind, items, selectedTemplate, selectedCharacter))
                     else NoneFound(emptyMessage))
  }

  function AsTemplateItems(ts: seq<MemeTemplate>): (r: seq<CatalogItem>)
    ensures |r| == |ts| && forall i | 0 <= i < |ts| :: r[i] == TemplateItem(ts[i])
  {
    seq(|ts|, i requires 0 <= i < |ts| => TemplateItem(ts[i]))
  }

  function AsCharacterItems(cs: seq<SparkyCharacter>): (r: seq<CatalogItem>)
    ensures |r| == |cs| && forall i | 0 <= i < |cs| :: r[i] == CharacterItem(cs[i])
  {
    seq(|cs|, i requires 0 <= i < |cs| => CharacterItem(cs[i]))
  }

  function FilteredBackgrounds(searchTerm: string): seq<MemeTemplate>
  {
    FilterByName(Catalog.BackgroundTemplates, TemplateName, searchTerm)
  }

  function FilteredMemes(searchTerm: string): seq<MemeTemplate>
  {
    FilterByName(Catalog.MemeTemplates, TemplateName, searchTerm)
  }

  function FilteredSparky(searchTerm: string): seq<SparkyCharacter>
  {
    FilterByName(Catalog.SparkyCharacters, CharacterName, searchTerm)
  }

  datatype SidebarView = SidebarView(backgrounds: Section, memes: Section, sparky: Section)

  /** What the component renders.  `templates` and `characters` are declared
      props that the component never destructures. */
  function Render(searchTerm: string, templates: seq<MemeTemplate>, characters: seq<SparkyCharacter>,
                  selectedTemplate: Option<MemeTemplate>, selectedCharacter: Option<SparkyCharacter>): (v: SidebarView)
    ensures v.backgrounds.badge == |FilteredBackgrounds(searchTerm)|
    ensures v.memes.badge == |FilteredMemes(searchTerm)|
    ensures v.sparky.badge == |FilteredSparky(searchTerm)|
    ensures v.backgrounds.body.NoneFound? <==> FilteredBackgrounds(searchTerm) == []
    ensures v.memes.body.NoneFound? <==> FilteredMemes(searchTerm) == []
    ensures v.sparky.body.NoneFound? <==> FilteredSparky(searchTerm) == []
    ensures v.backgrounds.body.NoneFound? ==> v.backgrounds.body.message == "No backgrounds found"
    ensures v.memes.body.NoneFound? ==> v.memes.body.message == "No meme templates found"
    ensures v.sparky.body.NoneFound? ==> v.sparky.body.message == "No characters found"
    ensures v.backgrounds.body.Grid? ==>
      (v.backgrounds.body.cells == ItemGrid(BackgroundGrid, AsTemplateItems(FilteredBackgrounds(searchTerm)), selectedTemplate, selectedCharacter))
    ensures v.memes.body.Grid? ==>
      (v.memes.body.cells == ItemGrid(MemeGrid, AsTemplateItems(FilteredMemes(searchTerm)), selectedTemplate, selectedCharacter))
    ensures v.sparky.body.Grid? ==>
      (v.sparky.body.cells == ItemGrid(SparkyGrid, AsCharacterItems(FilteredSparky(searchTerm)), selectedTemplate, selectedCharacter))
  {
    SidebarView(
      MakeSection(BackgroundGrid, AsTemplateItems(FilteredBackgrounds(searchTerm)), "No backgrounds found",
                  selectedTemplate, selectedCharacter),
      MakeSection(MemeGrid, AsTemplateItems(FilteredMemes(searchTerm)), "No meme templates found",
                  selectedTemplate, selectedCharacter),
      MakeSection(SparkyGrid, AsCharacterItems(FilteredSparky(searchTerm)), "No characters found",
                  selectedTemplate, selectedCharacter))
  }

  /** The lists passed as props have no effect on what is shown. */
  lemma PropsIgnored(searchTerm: string, t1: seq<MemeTemplate>, c1: seq<SparkyCharacter>,
                     t2: seq<MemeTemplate>, c2: seq<SparkyCharacter>,
                     selectedTemplate: Option<MemeTemplate>, selectedCharacter: Option<SparkyCharacter>)
    ensures Render(searchTerm, t1, c1, selectedTemplate, selectedCharacter)
         == Render(searchTerm, t2, c2, selectedTemplate, selectedCharacter)
  {
  }

  /** With an empty search box every catalog entry is listed, in catalog order. */
  lemma EmptySearchListsCatalog()
    ensures FilteredBackgrounds("") == Catalog.BackgroundTemplates
    ensures FilteredMemes("") == Catalog.MemeTemplates
    ensures FilteredSparky("") == Catalog.SparkyCharacters
  {
    FilterEmptyTerm(Catalog.BackgroundTemplates, TemplateName);
    FilterEmptyTerm(Catalog.MemeTemplates, TemplateName);
    FilterEmptyTerm(Catalog.SparkyCharacters, CharacterName);
  }

  /** Lower-casing the sample names, one string at a time. */
  lemma LowerTerm() ensures Lower("sparky") == "sparky" {
    var s := "sparky";
    assert forall i | 0 <= i < |s| :: LowerChar(s[i]) == s[i];
  }

  lemma LowerHappy() ensures Lower("Happy Sparky") == "happy sparky" {
    assert LowerChar('H') == 'h' && LowerChar('S') == 's';
  }

  lemma LowerCool() ensures Lower("Cool Sparky") == "cool sparky" {
    assert LowerChar('C') == 'c' && LowerChar('S') == 's';
  }

  lemma LowerClassic() ensures Lower("Classic Meme") == "classic meme" {
    assert LowerChar('C') == 'c' && LowerChar('M') == 'm';
  }

  /** The term "sparky" occurs, case-insensitively, in "Happy Sparky" and
      "Cool Sparky" but not in "Classic Meme". */
  lemma HappyMatches()
    ensures Matches("Happy Sparky", "sparky")
  {
    LowerTerm();
    LowerHappy();
    var h := "happy sparky";
    assert OccursAt(h, "sparky", 6) by { assert h[6..12] == "sparky"; }
    IncludesIffOccurs(h, "sparky");
  }

  lemma CoolMatches()
    ensures Matches("Cool Sparky", "sparky")
  {
    LowerTerm();
    LowerCool();
    var c := "cool sparky";
    assert OccursAt(c, "sparky", 5) by { assert c[5..11] == "sparky"; }
    IncludesIffOccurs(c, "sparky");
  }

  lemma ClassicDoesNotMatch()
    ensures !Matches("Classic Meme", "sparky")
  {
    LowerTerm();
    LowerClassic();
    var m := "classic meme";
    forall i ensures !OccursAt(m, "sparky", i) {
      if 0 <= i && i + 6 <= |m| {
        assert m[i..i + 6][0] == m[i] && m[i..i + 6][1] == m[i + 1];
      }
    }
    IncludesIffOccurs(m, "sparky");
  }

  /** Searching "sparky" over ["Happy Sparky", "Cool Sparky", "Classic Meme"]
      keeps the first two, in order. */
  lemma SparkySearchExample()
    ensures FilterByName(["Happy Sparky", "Cool Sparky", "Classic Meme"], (s: string) => s, "sparky")
         == ["Happy Sparky", "Cool Sparky"]
  {
    var name := (s: string) => s;
    HappyMatches();
    CoolMatches();
    ClassicDoesNotMatch();
    var items := ["Happy Sparky", "Cool Sparky", "Classic Meme"];
    assert items[1..] == ["Cool Sparky", "Classic Meme"];
    assert items[1..][1..] == ["Classic Meme"];
    assert FilterByName(["Classic Meme"], name, "sparky") == [];
  }
}
