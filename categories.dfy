/** The seven ticket categories and their presentation data
    (`src/lib/categories.ts`), with the lookups that fall back to defaults for
    an unknown category. */
module Categories {
  import opened Base
  import Permissions

  datatype CategoryInfo = CategoryInfo(
    id: string,
    name: string,
    emoji: string,
    description: string,
    color: string,
    colorClass: string,
    bgClass: string,
    borderClass: string)

  const Categories: seq<CategoryInfo> := [
    CategoryInfo("SUPORTE", "Suporte", "\U{1F4C1}", "Suporte técnico e ajuda geral",
      "#6366F1", "text-cat-suporte", "bg-cat-suporte/20", "border-cat-suporte"),
    CategoryInfo("BUGS", "Reportar Bugs", "\U{1F9A0}", "Reportar erros e problemas técnicos",
      "#22C55E", "text-cat-bugs", "bg-cat-bugs/20", "border-cat-bugs"),
    CategoryInfo("DENUNCIAS", "Denúncias", "\U{26A0}\U{FE0F}", "Reportar infrações e problemas de conduta",
      "#EF4444", "text-cat-denuncias", "bg-cat-denuncias/20", "border-cat-denuncias"),
    CategoryInfo("DOACOES", "Doações", "\U{1F48E}", "Assuntos relacionados a doações",
      "#A855F7", "text-cat-doacoes", "bg-cat-doacoes/20", "border-cat-doacoes"),
    CategoryInfo("BOOST", "Boost", "\U{1F680}", "Suporte para membros boosters",
      "#EC4899", "text-cat-boost", "bg-cat-boost/20", "border-cat-boost"),
    CategoryInfo("CASAS", "Casas", "\U{1F3E0}", "Questões relacionadas a casas e propriedades",
      "#F59E0B", "text-cat-casas", "bg-cat-casas/20", "border-cat-casas"),
    CategoryInfo("REVISAO", "Revisão", "\U{1F50D}", "Solicitar revisão de decisões e processos",
      "#06B6D4", "text-cat-revisao", "bg-cat-revisao/20", "border-cat-revisao")
  ]

  const DefaultEmoji := "\U{1F4CB}"
  const DefaultColor := "#EAF207"

  predicate Known(category: string) {
    exists i :: 0 <= i < |Categories| && Categories[i].id == category
  }

  /** `i` is the first position holding an entry with that id. */
  predicate FirstWithId(entries: seq<CategoryInfo>, category: string, i: int) {
    0 <= i < |entries| && entries[i].id == category &&
    forall j :: 0 <= j < i ==> entries[j].id != category
  }

  /** `entries.find(c => c.id === category)`: the first entry with that id. */
  function Find(entries: seq<CategoryInfo>, category: string): (r: Option<CategoryInfo>)
    ensures r.None? <==> forall i :: 0 <= i < |entries| ==> entries[i].id != category
    ensures r.Some? ==> exists i :: FirstWithId(entries, category, i) && entries[i] == r.value
  {
    if entries == [] then None
    else if entries[0].id == category then
      assert FirstWithId(entries, category, 0);
      Some(entries[0])
    else
      var r := Find(entries[1..], category);
      assert forall i :: 1 <= i < |entries| ==> entries[i] == entries[1..][i - 1];
      assert r.Some? ==> exists i :: FirstWithId(entries, category, i) && entries[i] == r.value by {
        if r.Some? {
          var k :| FirstWithId(entries[1..], category, k) && entries[1..][k] == r.value;
          assert FirstWithId(entries, category, k + 1);
        }
      }
      r
  }

  /** `getCategoryInfo`. */
  function GetCategoryInfo(category: string): (r: Option<CategoryInfo>)
    ensures r.None? <==> !Known(category)
    ensures forall i :: 0 <= i < |Categories| && Categories[i].id == category ==> r == Some(Categories[i])
  {
    CategoriesAreDistinct();
    Find(Categories, category)
  }

  /** `getCategoryEmoji`: the entry's emoji, or the clipboard for an unknown id. */
  function GetCategoryEmoji(category: string): (r: string)
    ensures forall i :: 0 <= i < |Categories| && Categories[i].id == category ==> r == Categories[i].emoji
    ensures !Known(category) ==> r == DefaultEmoji
  {
    var info := GetCategoryInfo(category);
    Or(if info.Some? then Some(info.value.emoji) else None, DefaultEmoji)
  }

  /** `getCategoryColor`: the entry's color, or the brand yellow. */
  function GetCategoryColor(category: string): (r: string)
    ensures forall i :: 0 <= i < |Categories| && Categories[i].id == category ==> r == Categories[i].color
    ensures !Known(category) ==> r == DefaultColor
  {
    var info := GetCategoryInfo(category);
    Or(if info.Some? then Some(info.value.color) else None, DefaultColor)
  }

  datatype CategoryClasses = CategoryClasses(colorClass: string, bgClass: string, borderClass: string)

  /** `getCategoryClasses`: the entry's three classes, or the primary ones. */
  function GetCategoryClasses(category: string): (r: CategoryClasses)
    ensures forall i :: 0 <= i < |Categories| && Categories[i].id == category ==>
      r == CategoryClasses(Categories[i].colorClass, Categories[i].bgClass, Categories[i].borderClass)
    ensures !Known(category) ==> r == CategoryClasses("text-primary", "bg-primary/20", "border-primary")
  {
    var info := GetCategoryInfo(category);
    CategoryClasses(
      Or(if info.Some? then Some(info.value.colorClass) else None, "text-primary"),
      Or(if info.Some? then Some(info.value.bgClass) else None, "bg-primary/20"),
      Or(if info.Some? then Some(info.value.borderClass) else None, "border-primary"))
  }

  /** The ids of the table, in order. */
  function CategoryIds(): (ids: seq<string>)
    ensures |ids| == |Categories|
    ensures forall i :: 0 <= i < |ids| ==> ids[i] == Categories[i].id
  {
    Map(Categories, (c: CategoryInfo) => c.id)
  }

  /** Seven categories with pairwise distinct ids. */
  lemma CategoriesAreDistinct()
    ensures |Categories| == 7
    ensures forall i, j :: 0 <= i < j < |Categories| ==> Categories[i].id != Categories[j].id
  {
  }

  /** Every category a role may be granted is one of the table's. */
  lemma PermittedCategoriesAreKnown(role: string, category: string)
    requires Permissions.CanAccessCategory(role, category)
    ensures Known(category)
  {
    var ids := CategoryIds();
    assert ids == ["SUPORTE", "BUGS", "DENUNCIAS", "DOACOES", "BOOST", "CASAS", "REVISAO"];
    assert category in ids;
    var i :| 0 <= i < |ids| && ids[i] == category;
    assert Categories[i].id == category;
  }
}
