/**
 * The relationship-sentence renderer: turns a tag's `requires` list into an
 * English sentence such as "Requires 't1'; 't2'; and either 't3', or 't4'".
 *
 * Both loops of `makeRelationshipsStrings` are left folds that carry the
 * item index; they are modelled as FoldRequires and FoldGroup, which render
 * the first n items (members). ListPhrase is an independent definition of the serial list
 * wording, and RequiresSentence and GroupSentence prove the folds equal to it.
 */
module Documentation {
  import opened Parser

  /*
   * References
   */

  /** A reference names a whole category exactly when it ends with '/'. */
  predicate IsCategory(name: Name) {
    |name| > 0 && name[|name| - 1] == '/'
  }

  /** A category reference with its trailing '/' dropped. */
  function StripMarker(name: Name): (r: Name)
    requires IsCategory(name)
    ensures r + "/" == name
  {
    name[..|name| - 1]
  }

  function Quote(s: string): string {
    "'" + s + "'"
  }

  /** Text of an AND item that is a single reference. */
  function RenderRef(name: Name): string {
    if IsCategory(name) then "all tags from category " + Quote(StripMarker(name))
    else Quote(name)
  }

  /*
   * OR-groups
   */

  /** The word that opens an OR-group: "either" for two alternatives. */
  function GroupPrimer(count: nat): string {
    if count == 2 then "either" else "any of"
  }

  /** What precedes member `index` of a group of `count` members. */
  function MemberSeparator(index: nat, count: nat): string {
    if index == 0 then "" else if index == count - 1 then ", or" else ","
  }

  /** Text of one member of an OR-group at position `index`. */
  function MemberText(name: Name, index: nat): string {
    if IsCategory(name) then
      (if index == 0 then "" else "any of ") + "category " + Quote(StripMarker(name))
    else Quote(name)
  }

  /** The inner reduce after its first n steps. */
  function FoldGroup(names: seq<Name>, n: nat): (r: string)
    requires n <= |names|
    ensures GroupPrimer(|names|) <= r
    decreases n
  {
    if n == 0 then GroupPrimer(|names|)
    else FoldGroup(names, n - 1) + MemberSeparator(n - 1, |names|) + " " + MemberText(names[n - 1], n - 1)
  }

  function RenderGroup(names: seq<Name>): string {
    FoldGroup(names, |names|)
  }

  /*
   * Top-level items
   */

  /** An OR-group of one tag (not a category) is the same as that tag alone. */
  function Collapse(item: Item): Item {
    if item.OrGroup? && |item.names| == 1 && !IsCategory(item.names[0]) then Ref(item.names[0])
    else item
  }

  function RenderItem(item: Item): string {
    match Collapse(item)
    case Ref(name) => RenderRef(name)
    case OrGroup(names) => RenderGroup(names)
  }

  /** Whether the list, as written and before any collapse, holds an OR-group. */
  predicate HasNestedList(items: RelationshipList) {
    exists i :: 0 <= i < |items| && items[i].OrGroup?
  }

  /** Semicolons separate top-level items when OR-groups bring in commas. */
  function Delimiter(items: RelationshipList): string {
    if HasNestedList(items) then ";" else ","
  }

  /** What precedes top-level item `index`. */
  function ItemSeparator(index: nat, items: RelationshipList): string
    requires index < |items|
  {
    if index == 0 then ""
    else Delimiter(items) + (if index == |items| - 1 then " and" else "")
  }

  /** The outer reduce after its first n steps. */
  function FoldRequires(items: RelationshipList, n: nat): (r: string)
    requires n <= |items|
    ensures "Requires" <= r
    decreases n
  {
    if n == 0 then "Requires"
    else FoldRequires(items, n - 1) + ItemSeparator(n - 1, items) + " " + RenderItem(items[n - 1])
  }

  /**
   * The strings describing a tag's relationships: none when the tag has no
   * `requires` list, otherwise exactly the one "Requires ..." sentence.
   */
  function MakeRelationshipsStrings(tag: Tag): (r: seq<string>)
    ensures tag.requirements.None? <==> r == []
    ensures tag.requirements.Some? ==> |r| == 1 && "Requires" <= r[0]
    ensures tag.requirements == Some([]) ==> r == ["Requires"]
  {
    match tag.requirements
    case None => []
    case Some(items) => [FoldRequires(items, |items|)]
  }

  /*
   * Reference definition: a serial list "a, b, and c"
   */

  /** The parts separated by `sep`. */
  function Join(parts: seq<string>, sep: string): string
    decreases |parts|
  {
    if |parts| == 0 then ""
    else if |parts| == 1 then parts[0]
    else Join(parts[..|parts| - 1], sep) + sep + parts[|parts| - 1]
  }

  /**
   * " a", " a<delim> <conj> b", " a<delim> b<delim> <conj> c", ...: each part
   * after a space, parts separated by `delim`, and `conj` before the last.
   */
  function ListPhrase(parts: seq<string>, delim: string, conj: string): string {
    if |parts| == 0 then ""
    else if |parts| == 1 then " " + parts[0]
    else " " + Join(parts[..|parts| - 1], delim + " ") + delim + " " + conj + " " + parts[|parts| - 1]
  }

  /** The rendered top-level items, one per item and in input order. */
  function RenderedItems(items: RelationshipList): (r: seq<string>)
    ensures |r| == |items|
    ensures forall i :: 0 <= i < |items| ==> r[i] == RenderItem(items[i])
  {
    seq(|items|, i requires 0 <= i < |items| => RenderItem(items[i]))
  }

  /** The rendered members of an OR-group, one per member and in order. */
  function MemberTexts(names: seq<Name>): (r: seq<string>)
    ensures |r| == |names|
    ensures forall i :: 0 <= i < |names| ==> r[i] == MemberText(names[i], i)
  {
    seq(|names|, i requires 0 <= i < |names| => MemberText(names[i], i))
  }

  /*
   * Properties
   */

  lemma {:induction false} Regroup(a: string, p: string, d: string, s: string, l: string)
    ensures a + p + d + s + l == a + (p + (d + s) + l)
  {
  }

  lemma {:induction false} RegroupLast(a: string, p: string, d: string, c: string, l: string)
    ensures a + " " + p + (d + (" " + c)) + " " + l == a + (" " + p + d + " " + c + " " + l)
  {
  }

  lemma {:induction false} EmptyMiddle(a: string, s: string, l: string)
    ensures a + "" + s + l == a + (s + l)
  {
  }

  lemma SpaceAfterRequires()
    ensures "Requires" + " " == "Requires "
  {
  }

  lemma CommaOr()
    ensures "," + (" " + "or") == ", or"
  {
  }

  lemma {:induction false} JoinSnoc(parts: seq<string>, n: nat, sep: string)
    requires 1 < n <= |parts|
    ensures Join(parts[..n], sep) == Join(parts[..n - 1], sep) + sep + parts[n - 1]
  {
    assert parts[..n][..n - 1] == parts[..n - 1];
  }

  lemma {:induction false} FoldRequiresFirst(items: RelationshipList)
    requires |items| >= 1
    ensures FoldRequires(items, 1) == "Requires " + RenderItem(items[0])
  {
    assert ItemSeparator(0, items) == "";
  }

  lemma {:induction false} RequiresPrefix(items: RelationshipList, n: nat)
    requires 1 <= n < |items|
    ensures FoldRequires(items, n) == "Requires " + Join(RenderedItems(items)[..n], Delimiter(items) + " ")
  {
    var parts, sep := RenderedItems(items), Delimiter(items) + " ";
    var last := RenderItem(items[n - 1]);
    if n == 1 {
      assert parts[..1] == [last];
      FoldRequiresFirst(items);
    } else {
      RequiresPrefix(items, n - 1);
      var prev := Join(parts[..n - 1], sep);
      assert parts[n - 1] == last;
      JoinSnoc(parts, n, sep);
      assert ItemSeparator(n - 1, items) == Delimiter(items);
      assert FoldRequires(items, n) == "Requires " + prev + Delimiter(items) + " " + last;
      Regroup("Requires ", prev, Delimiter(items), " ", last);
    }
  }

  lemma {:induction false} RequiresSentenceOne(items: RelationshipList)
    requires |items| == 1
    ensures FoldRequires(items, 1) == "Requires" + ListPhrase(RenderedItems(items), Delimiter(items), "and")
  {
    var only := RenderItem(items[0]);
    assert RenderedItems(items)[0] == only;
    assert ListPhrase(RenderedItems(items), Delimiter(items), "and") == " " + only;
    assert FoldRequires(items, 0) == "Requires";
    assert ItemSeparator(0, items) == "";
    EmptyMiddle("Requires", " ", only);
  }

  lemma {:induction false} RequiresSentenceMany(items: RelationshipList)
    requires |items| >= 2
    ensures FoldRequires(items, |items|) == "Requires" + ListPhrase(RenderedItems(items), Delimiter(items), "and")
  {
    var n, parts, delim := |items|, RenderedItems(items), Delimiter(items);
    RequiresPrefix(items, n - 1);
    var prev := Join(parts[..n - 1], delim + " ");
    var last := RenderItem(items[n - 1]);
    SpaceAfterRequires();
    assert " " + "and" == " and";
    assert ItemSeparator(n - 1, items) == delim + " and";
    assert FoldRequires(items, n) == "Requires" + " " + prev + (delim + (" " + "and")) + " " + last;
    RegroupLast("Requires", prev, delim, "and", last);
  }

  /**
   * The sentence is "Requires" followed by the serial list of the rendered
   * items, joined by the delimiter with "and" before the last item.
   */
  lemma {:induction false} RequiresSentence(items: RelationshipList)
    ensures FoldRequires(items, |items|) == "Requires" + ListPhrase(RenderedItems(items), Delimiter(items), "and")
  {
    if |items| == 1 {
      RequiresSentenceOne(items);
    } else if |items| >= 2 {
      RequiresSentenceMany(items);
    }
  }

  lemma {:induction false} GroupPrefix(names: seq<Name>, n: nat)
    requires 1 <= n < |names|
    ensures FoldGroup(names, n) == GroupPrimer(|names|) + " " + Join(MemberTexts(names)[..n], "," + " ")
  {
    var parts, primer := MemberTexts(names), GroupPrimer(|names|);
    var last := MemberText(names[n - 1], n - 1);
    if n == 1 {
      assert parts[..1] == [last];
      assert MemberSeparator(0, |names|) == "";
      assert primer + "" == primer;
      assert FoldGroup(names, 1) == primer + " " + last;
    } else {
      GroupPrefix(names, n - 1);
      var prev := Join(parts[..n - 1], "," + " ");
      JoinSnoc(parts, n, "," + " ");
      assert MemberSeparator(n - 1, |names|) == ",";
      assert FoldGroup(names, n) == (primer + " ") + prev + "," + " " + last;
      Regroup(primer + " ", prev, ",", " ", last);
    }
  }

  /**
   * An OR-group reads as its opening word followed by the serial list of its
   * members, separated by commas with "or" before the last member.
   */
  lemma {:induction false} FoldGroupLast(names: seq<Name>)
    requires |names| >= 2
    ensures FoldGroup(names, |names|) ==
      FoldGroup(names, |names| - 1) + ("," + (" " + "or")) + " " + MemberText(names[|names| - 1], |names| - 1)
  {
    CommaOr();
  }

  lemma {:induction false} ListPhraseLast(parts: seq<string>, delim: string, conj: string)
    requires |parts| >= 2
    ensures ListPhrase(parts, delim, conj) ==
      " " + Join(parts[..|parts| - 1], delim + " ") + delim + " " + conj + " " + parts[|parts| - 1]
  {
  }

  lemma {:induction false} GroupSentence(names: seq<Name>)
    ensures RenderGroup(names) == GroupPrimer(|names|) + ListPhrase(MemberTexts(names), ",", "or")
  {
    var n, parts, primer := |names|, MemberTexts(names), GroupPrimer(|names|);
    if n == 1 {
      var only := MemberText(names[0], 0);
      assert MemberSeparator(0, 1) == "";
      assert primer + "" == primer;
      assert FoldGroup(names, 1) == primer + " " + only;
      assert ListPhrase(parts, ",", "or") == " " + only;
      assert primer + " " + only == primer + (" " + only);
    } else if n >= 2 {
      var prev, last := Join(parts[..n - 1], "," + " "), MemberText(names[n - 1], n - 1);
      assert parts[n - 1] == last;
      GroupPrefix(names, n - 1);
      FoldGroupLast(names);
      ListPhraseLast(parts, ",", "or");
      RegroupLast(primer, prev, ",", "or", last);
    }
  }

  /** The whole result, stated through the reference definition. */
  lemma {:induction false} RelationshipsSentence(tag: Tag)
    ensures MakeRelationshipsStrings(tag) ==
      match tag.requirements
      case None => []
      case Some(items) => ["Requires" + ListPhrase(RenderedItems(items), Delimiter(items), "and")]
  {
    if tag.requirements.Some? {
      RequiresSentence(tag.requirements.value);
    }
  }

  /** Only the `requires` list affects the result. */
  lemma {:induction false} OnlyRequiresMatters(t1: Tag, t2: Tag)
    requires t1.requirements == t2.requirements
    ensures MakeRelationshipsStrings(t1) == MakeRelationshipsStrings(t2)
  {
  }

  /**
   * A one-name OR-group renders exactly like the bare name if and only if the
   * name is not a category reference.
   */
  lemma {:induction false} SingletonCollapse(name: Name)
    ensures RenderItem(OrGroup([name])) == RenderItem(Ref(name)) <==> !IsCategory(name)
  {
    if IsCategory(name) {
      var group := RenderItem(OrGroup([name]));
      assert group == "any of" + " " + "category " + Quote(StripMarker(name));
      assert group[1] == 'n';
      assert RenderItem(Ref(name))[1] == 'l';
    }
  }

  /**
   * Collapsing a one-tag OR-group does not change the delimiter: the list is
   * still joined with semicolons, and that item reads like a bare name.
   */
  lemma {:induction false} CollapseKeepsSemicolons(items: RelationshipList, i: nat, name: Name)
    requires i < |items| && items[i] == OrGroup([name]) && !IsCategory(name)
    ensures FoldRequires(items, |items|) ==
      "Requires" + ListPhrase(RenderedItems(items[i := Ref(name)]), ";", "and")
  {
    RequiresSentence(items);
    assert items[i].OrGroup?;
    assert Delimiter(items) == ";";
    CollapsedRendering(items, i, name);
  }

  lemma {:induction false} CollapsedRendering(items: RelationshipList, i: nat, name: Name)
    requires i < |items| && items[i] == OrGroup([name]) && !IsCategory(name)
    ensures RenderedItems(items[i := Ref(name)]) == RenderedItems(items)
  {
    var updated := items[i := Ref(name)];
    assert Collapse(items[i]) == Ref(name);
    forall j | 0 <= j < |items|
      ensures RenderedItems(updated)[j] == RenderedItems(items)[j]
    {
      if j != i {
        assert updated[j] == items[j];
      }
    }
  }

  /** "either" opens a group of exactly two members, "any of" every other. */
  lemma {:induction false} GroupOpening(names: seq<Name>)
    ensures "either" <= RenderGroup(names) <==> |names| == 2
    ensures "any of" <= RenderGroup(names) <==> |names| != 2
  {
    var r := RenderGroup(names);
    if |names| == 2 {
      assert r[0] == 'e';
    } else {
      assert r[0] == 'a';
    }
  }

  /**
   * A category member of an OR-group reads "category '<name>'" when it comes
   * first and "any of category '<name>'" after that.
   */
  lemma {:induction false} CategoryMemberWording(name: Name, index: nat)
    requires IsCategory(name)
    ensures "any of " <= MemberText(name, index) <==> index > 0
    ensures MemberText(name, index) == "category " + Quote(StripMarker(name)) <==> index == 0
  {
    var r, shown := MemberText(name, index), Quote(StripMarker(name));
    if index == 0 {
      assert r == "category " + shown;
      assert r[0] == 'c';
    } else {
      assert r == "any of " + "category " + shown;
      assert r[..7] == "any of ";
      assert r[0] == 'a';
    }
  }

  /** A bare reference's text gives back the name it was rendered from. */
  lemma {:induction false} RefTextRecovers(name: Name)
    ensures var r := RenderItem(Ref(name));
      if IsCategory(name) then
        r[..24] == "all tags from category '" && r[0] == 'a'
        && StripMarker(name) == r[24..|r| - 1] && r[|r| - 1] == '\''
      else r[0] == '\'' && name == r[1..|r| - 1] && r[|r| - 1] == '\''
  {
    var r := RenderItem(Ref(name));
    if IsCategory(name) {
      var prefix := "all tags from category '";
      assert |prefix| == 24;
      assert r == prefix + StripMarker(name) + "'";
    } else {
      assert r == "'" + name + "'";
    }
  }

  /** Distinct bare references render to distinct texts. */
  lemma {:induction false} RefRenderingInjective(a: Name, b: Name)
    ensures RenderItem(Ref(a)) == RenderItem(Ref(b)) ==> a == b
  {
    RefTextRecovers(a);
    RefTextRecovers(b);
    if IsCategory(a) && IsCategory(b) && RenderItem(Ref(a)) == RenderItem(Ref(b)) {
      assert a == StripMarker(a) + "/" && b == StripMarker(b) + "/";
    }
  }
}
