/**
 * The renderer's expected outputs on the example inputs of the project's
 * documentation tests, plus a few boundary cases.
 */
module DocumentationExamples {
  import opened Parser
  import opened Documentation

  function Requiring(items: RelationshipList): Tag {
    EmptyTag.(requirements := Some(items))
  }

  /*
   * Helpers that reduce an example to short equalities between literals.
   */

  lemma {:induction false} PlainRef(name: Name, text: string)
    requires !IsCategory(name) && "'" + name + "'" == text
    ensures RenderItem(Ref(name)) == text && RenderItem(OrGroup([name])) == text
    ensures MemberText(name, 0) == text && MemberText(name, 1) == text && MemberText(name, 2) == text
  {
  }

  lemma {:induction false} CategoryRef(name: Name, shown: string, text: string)
    requires name == shown + "/" && "all tags from category " + Quote(shown) == text
    ensures RenderItem(Ref(name)) == text
  {
    assert name[..|name| - 1] == shown;
  }

  lemma {:induction false} CategoryMember(name: Name, shown: string, index: nat, text: string)
    requires name == shown + "/"
    requires index == 0 ==> "category " + Quote(shown) == text
    requires index != 0 ==> "any of " + "category " + Quote(shown) == text
    ensures MemberText(name, index) == text
  {
    assert name[..|name| - 1] == shown;
  }

  /** The category texts of the examples, spelled out. */
  lemma CategoryTexts()
    ensures "all tags from category " + Quote("c") == "all tags from category 'c'"
    ensures "all tags from category " + Quote("c1") == "all tags from category 'c1'"
    ensures "category " + Quote("c") == "category 'c'" && "category " + Quote("c2") == "category 'c2'"
    ensures "any of " + "category " + Quote("c") == "any of category 'c'"
    ensures "any of " + "category " + Quote("c3") == "any of category 'c3'"
  {
  }

  /** An example's sentence, given the texts of its items. */
  lemma {:induction false} Sentence(items: RelationshipList, parts: seq<string>)
    requires |items| == |parts| && forall i :: 0 <= i < |items| ==> RenderItem(items[i]) == parts[i]
    ensures MakeRelationshipsStrings(Requiring(items)) == ["Requires" + ListPhrase(parts, Delimiter(items), "and")]
  {
    RequiresSentence(items);
    assert RenderedItems(items) == parts;
    assert Requiring(items).requirements == Some(items);
  }

  /** An example's OR-group, given the texts of its members. */
  lemma {:induction false} Group(names: seq<Name>, parts: seq<string>)
    requires |names| != 1 || IsCategory(names[0])
    requires |names| == |parts| && forall i :: 0 <= i < |names| ==> MemberText(names[i], i) == parts[i]
    ensures RenderItem(OrGroup(names)) == GroupPrimer(|names|) + ListPhrase(parts, ",", "or")
  {
    GroupSentence(names);
    assert MemberTexts(names) == parts;
  }

  /*
   * A phrase over literal parts, split into the opening word, the parts and
   * the separators between them.
   */

  lemma {:induction false} Chunks1(p: string, a: string, d: string, c: string)
    ensures p + ListPhrase([a], d, c) == (p + " ") + a
  {
  }

  lemma {:induction false} Chunks2(p: string, a: string, b: string, d: string, c: string)
    ensures p + ListPhrase([a, b], d, c) == (p + " ") + a + (d + " " + c + " ") + b
  {
    assert [a, b][..1] == [a];
  }

  lemma {:induction false} Chunks3(p: string, a: string, b: string, x: string, d: string, c: string)
    ensures p + ListPhrase([a, b, x], d, c) == (p + " ") + a + (d + " ") + b + (d + " " + c + " ") + x
  {
    var s := d + " ";
    assert [a, b, x][..2] == [a, b] && [a, b][..1] == [a];
    assert Join([a, b], s) == a + s + b;
    assert ListPhrase([a, b, x], d, c) == " " + (a + s + b) + d + " " + c + " " + x;
  }

  lemma {:induction false} Chunks4(p: string, a: string, b: string, x: string, y: string, d: string, c: string)
    ensures p + ListPhrase([a, b, x, y], d, c) ==
      (p + " ") + a + (d + " ") + b + (d + " ") + x + (d + " " + c + " ") + y
  {
    var s := d + " ";
    assert [a, b, x, y][..3] == [a, b, x] && [a, b, x][..2] == [a, b] && [a, b][..1] == [a];
    assert Join([a, b], s) == a + s + b;
    assert Join([a, b, x], s) == a + s + b + s + x;
    assert ListPhrase([a, b, x, y], d, c) == " " + (a + s + b + s + x) + d + " " + c + " " + y;
  }

  /** The opening words and separators, spelled out. */
  lemma Connectors()
    ensures "Requires" + " " == "Requires "
    ensures "either" + " " == "either " && "any of" + " " == "any of "
    ensures "," + " " == ", " && ";" + " " == "; "
    ensures "," + " " + "and" + " " == ", and " && ";" + " " + "and" + " " == "; and "
    ensures "," + " " + "or" + " " == ", or "
  {
  }

  /*
   * The examples. Each states the expected string as the test writes it. A
   * spelling lemma beside it proves that the pieces the renderer produces
   * (opening word, item texts, separators) join to that string; it mentions
   * no renderer function, so the solver compares the literals on their own.
   */

  /** A tag without `requires` yields no strings at all (the tests expect ""). */
  lemma NoRequires()
    ensures MakeRelationshipsStrings(EmptyTag) == []
  {
  }

  lemma EmptyRequires()
    ensures MakeRelationshipsStrings(Requiring([])) == ["Requires"]
  {
  }

  lemma OneTagSpelling()
    ensures "Requires " + "'t'" == "Requires 't'"
  {
  }

  lemma OneTag()
    ensures MakeRelationshipsStrings(Requiring([Ref("t")])) == ["Requires 't'"]
  {
    var items := [Ref("t")];
    OneTagSpelling();
    Connectors();
    PlainRef("t", "'t'");
    Sentence(items, ["'t'"]);
    Chunks1("Requires", "'t'", Delimiter(items), "and");
  }

  lemma TwoTagsSpelling()
    ensures "Requires " + "'t1'" + ", and " + "'t2'" == "Requires 't1', and 't2'"
  {
  }

  lemma TwoTags()
    ensures MakeRelationshipsStrings(Requiring([Ref("t1"), Ref("t2")])) == ["Requires 't1', and 't2'"]
  {
    var items := [Ref("t1"), Ref("t2")];
    TwoTagsSpelling();
    Connectors();
    PlainRef("t1", "'t1'");
    PlainRef("t2", "'t2'");
    assert !HasNestedList(items);
    Sentence(items, ["'t1'", "'t2'"]);
    Chunks2("Requires", "'t1'", "'t2'", ",", "and");
  }

  /*
   * OR-groups of the examples, each rendered on its own
   */

  lemma EitherT2T3Spelling()
    ensures "either " + "'t2'" + ", or " + "'t3'" == "either 't2', or 't3'"
  {
  }

  lemma EitherT2T3()
    ensures RenderItem(OrGroup(["t2", "t3"])) == "either 't2', or 't3'"
  {
    EitherT2T3Spelling();
    Connectors();
    PlainRef("t2", "'t2'");
    PlainRef("t3", "'t3'");
    Group(["t2", "t3"], ["'t2'", "'t3'"]);
    Chunks2("either", "'t2'", "'t3'", ",", "or");
  }

  lemma EitherT3T4Spelling()
    ensures "either " + "'t3'" + ", or " + "'t4'" == "either 't3', or 't4'"
  {
  }

  lemma EitherT3T4()
    ensures RenderItem(OrGroup(["t3", "t4"])) == "either 't3', or 't4'"
  {
    EitherT3T4Spelling();
    Connectors();
    PlainRef("t3", "'t3'");
    PlainRef("t4", "'t4'");
    Group(["t3", "t4"], ["'t3'", "'t4'"]);
    Chunks2("either", "'t3'", "'t4'", ",", "or");
  }

  lemma EitherT4T5Spelling()
    ensures "either " + "'t4'" + ", or " + "'t5'" == "either 't4', or 't5'"
  {
  }

  lemma EitherT4T5()
    ensures RenderItem(OrGroup(["t4", "t5"])) == "either 't4', or 't5'"
  {
    EitherT4T5Spelling();
    Connectors();
    PlainRef("t4", "'t4'");
    PlainRef("t5", "'t5'");
    Group(["t4", "t5"], ["'t4'", "'t5'"]);
    Chunks2("either", "'t4'", "'t5'", ",", "or");
  }

  lemma AnyOfThreeTagsSpelling()
    ensures "any of " + "'t1'" + ", " + "'t2'" + ", or " + "'t3'" == "any of 't1', 't2', or 't3'"
  {
  }

  lemma AnyOfThreeTags()
    ensures RenderItem(OrGroup(["t1", "t2", "t3"])) == "any of 't1', 't2', or 't3'"
  {
    AnyOfThreeTagsSpelling();
    Connectors();
    PlainRef("t1", "'t1'");
    PlainRef("t2", "'t2'");
    PlainRef("t3", "'t3'");
    Group(["t1", "t2", "t3"], ["'t1'", "'t2'", "'t3'"]);
    Chunks3("any of", "'t1'", "'t2'", "'t3'", ",", "or");
  }

  lemma AnyOfCategorySpelling()
    ensures "any of " + "category 'c'" == "any of category 'c'"
  {
  }

  /** A category opens with "any of" unless it is the group's first member. */
  lemma AnyOfCategory()
    ensures RenderItem(OrGroup(["c/"])) == "any of category 'c'"
  {
    AnyOfCategorySpelling();
    Connectors();
    CategoryTexts();
    CategoryMember("c/", "c", 0, "category 'c'");
    Group(["c/"], ["category 'c'"]);
    Chunks1("any of", "category 'c'", ",", "or");
  }

  lemma EitherTagOrCategorySpelling()
    ensures "either " + "'t'" + ", or " + "any of category 'c'" == "either 't', or any of category 'c'"
  {
  }

  lemma EitherTagOrCategory()
    ensures RenderItem(OrGroup(["t", "c/"])) == "either 't', or any of category 'c'"
  {
    EitherTagOrCategorySpelling();
    Connectors();
    CategoryTexts();
    PlainRef("t", "'t'");
    CategoryMember("c/", "c", 1, "any of category 'c'");
    Group(["t", "c/"], ["'t'", "any of category 'c'"]);
    Chunks2("either", "'t'", "any of category 'c'", ",", "or");
  }

  lemma {:induction false} AnyOfCategoriesAndTagSpelling()
    ensures "any of " + "category 'c2'" + ", " + "'t4'" + ", or " + "any of category 'c3'"
         == "any of category 'c2', 't4', or any of category 'c3'"
  {
    assert "any of " + "category 'c2'" + ", " + "'t4'" == "any of category 'c2', 't4'";
  }

  lemma AnyOfCategoriesAndTag()
    ensures RenderItem(OrGroup(["c2/", "t4", "c3/"])) == "any of category 'c2', 't4', or any of category 'c3'"
  {
    AnyOfCategoriesAndTagSpelling();
    Connectors();
    CategoryTexts();
    PlainRef("t4", "'t4'");
    CategoryMember("c2/", "c2", 0, "category 'c2'");
    CategoryMember("c3/", "c3", 2, "any of category 'c3'");
    Group(["c2/", "t4", "c3/"], ["category 'c2'", "'t4'", "any of category 'c3'"]);
    Chunks3("any of", "category 'c2'", "'t4'", "any of category 'c3'", ",", "or");
  }

  /*
   * Whole sentences
   */

  lemma {:induction false} TagsAndGroupSpelling()
    ensures "Requires " + "'t1'" + "; " + "'t2'" + "; and " + "either 't3', or 't4'"
         == "Requires 't1'; 't2'; and either 't3', or 't4'"
  {
    assert "Requires " + "'t1'" + "; " + "'t2'" + "; and " == "Requires 't1'; 't2'; and ";
  }

  lemma TagsAndGroup()
    ensures MakeRelationshipsStrings(Requiring([Ref("t1"), Ref("t2"), OrGroup(["t3", "t4"])]))
         == ["Requires 't1'; 't2'; and either 't3', or 't4'"]
  {
    var items := [Ref("t1"), Ref("t2"), OrGroup(["t3", "t4"])];
    TagsAndGroupSpelling();
    Connectors();
    PlainRef("t1", "'t1'");
    PlainRef("t2", "'t2'");
    EitherT3T4();
    assert items[2].OrGroup?;
    Sentence(items, ["'t1'", "'t2'", "either 't3', or 't4'"]);
    Chunks3("Requires", "'t1'", "'t2'", "either 't3', or 't4'", ";", "and");
  }

  lemma {:induction false} TwoGroupsSpelling()
    ensures "Requires " + "any of 't1', 't2', or 't3'" + "; and " + "either 't4', or 't5'"
         == "Requires any of 't1', 't2', or 't3'; and either 't4', or 't5'"
  {
    assert "Requires " + "any of 't1', 't2', or 't3'" + "; and " == "Requires any of 't1', 't2', or 't3'; and ";
  }

  lemma TwoGroups()
    ensures MakeRelationshipsStrings(Requiring([OrGroup(["t1", "t2", "t3"]), OrGroup(["t4", "t5"])]))
         == ["Requires any of 't1', 't2', or 't3'; and either 't4', or 't5'"]
  {
    var items := [OrGroup(["t1", "t2", "t3"]), OrGroup(["t4", "t5"])];
    var g1, g2 := "any of 't1', 't2', or 't3'", "either 't4', or 't5'";
    TwoGroupsSpelling();
    Connectors();
    AnyOfThreeTags();
    EitherT4T5();
    assert items[0].OrGroup?;
    Sentence(items, [g1, g2]);
    Chunks2("Requires", g1, g2, ";", "and");
  }

  lemma WholeCategorySpelling()
    ensures "Requires " + "all tags from category 'c'" == "Requires all tags from category 'c'"
  {
  }

  lemma WholeCategory()
    ensures MakeRelationshipsStrings(Requiring([Ref("c/")])) == ["Requires all tags from category 'c'"]
  {
    var items := [Ref("c/")];
    WholeCategorySpelling();
    Connectors();
    CategoryTexts();
    CategoryRef("c/", "c", "all tags from category 'c'");
    Sentence(items, ["all tags from category 'c'"]);
    Chunks1("Requires", "all tags from category 'c'", Delimiter(items), "and");
  }

  lemma {:induction false} TagAndCategorySpelling()
    ensures "Requires " + "'t'" + ", and " + "all tags from category 'c'"
         == "Requires 't', and all tags from category 'c'"
  {
    assert "Requires " + "'t'" + ", and " == "Requires 't', and ";
  }

  lemma TagAndCategory()
    ensures MakeRelationshipsStrings(Requiring([Ref("t"), Ref("c/")]))
         == ["Requires 't', and all tags from category 'c'"]
  {
    var items := [Ref("t"), Ref("c/")];
    TagAndCategorySpelling();
    Connectors();
    CategoryTexts();
    PlainRef("t", "'t'");
    CategoryRef("c/", "c", "all tags from category 'c'");
    assert !HasNestedList(items);
    Sentence(items, ["'t'", "all tags from category 'c'"]);
    Chunks2("Requires", "'t'", "all tags from category 'c'", ",", "and");
  }

  lemma CategoryGroupSpelling()
    ensures "Requires " + "any of category 'c'" == "Requires any of category 'c'"
  {
  }

  lemma CategoryGroup()
    ensures MakeRelationshipsStrings(Requiring([OrGroup(["c/"])])) == ["Requires any of category 'c'"]
  {
    var items := [OrGroup(["c/"])];
    CategoryGroupSpelling();
    Connectors();
    AnyOfCategory();
    Sentence(items, ["any of category 'c'"]);
    Chunks1("Requires", "any of category 'c'", Delimiter(items), "and");
  }

  lemma TagOrCategorySpelling()
    ensures "Requires " + "either 't', or any of category 'c'" == "Requires either 't', or any of category 'c'"
  {
  }

  lemma TagOrCategory()
    ensures MakeRelationshipsStrings(Requiring([OrGroup(["t", "c/"])]))
         == ["Requires either 't', or any of category 'c'"]
  {
    var items := [OrGroup(["t", "c/"])];
    TagOrCategorySpelling();
    Connectors();
    EitherTagOrCategory();
    Sentence(items, ["either 't', or any of category 'c'"]);
    Chunks1("Requires", "either 't', or any of category 'c'", Delimiter(items), "and");
  }

  /** The texts of the items of the mixed example. */
  lemma MixedItems()
    ensures RenderItem(Ref("t1")) == "'t1'"
    ensures RenderItem(OrGroup(["t2", "t3"])) == "either 't2', or 't3'"
    ensures RenderItem(Ref("c1/")) == "all tags from category 'c1'"
    ensures RenderItem(OrGroup(["c2/", "t4", "c3/"])) == "any of category 'c2', 't4', or any of category 'c3'"
  {
    CategoryTexts();
    PlainRef("t1", "'t1'");
    EitherT2T3();
    CategoryRef("c1/", "c1", "all tags from category 'c1'");
    AnyOfCategoriesAndTag();
  }

  /**
   * The longest example: its expected string is written as the opening word,
   * the four item texts and the separators between them.
   */
  lemma Mixed()
    ensures MakeRelationshipsStrings(Requiring([Ref("t1"), OrGroup(["t2", "t3"]), Ref("c1/"), OrGroup(["c2/", "t4", "c3/"])]))
         == ["Requires " + "'t1'" + "; " + "either 't2', or 't3'" + "; " + "all tags from category 'c1'"
             + "; and " + "any of category 'c2', 't4', or any of category 'c3'"]
  {
    var items := [Ref("t1"), OrGroup(["t2", "t3"]), Ref("c1/"), OrGroup(["c2/", "t4", "c3/"])];
    var g1, c1 := "either 't2', or 't3'", "all tags from category 'c1'";
    var g2 := "any of category 'c2', 't4', or any of category 'c3'";
    Connectors();
    MixedItems();
    assert items[1].OrGroup?;
    Sentence(items, ["'t1'", g1, c1, g2]);
    Chunks4("Requires", "'t1'", g1, c1, g2, ";", "and");
  }

  lemma SingletonGroup()
    ensures MakeRelationshipsStrings(Requiring([OrGroup(["t"])])) == ["Requires 't'"]
  {
    var items := [OrGroup(["t"])];
    OneTagSpelling();
    Connectors();
    PlainRef("t", "'t'");
    Sentence(items, ["'t'"]);
    Chunks1("Requires", "'t'", Delimiter(items), "and");
  }

  lemma SingletonGroupKeepsSemicolonSpelling()
    ensures "Requires " + "'a'" + "; and " + "'b'" == "Requires 'a'; and 'b'"
  {
  }

  /** The delimiter is chosen before the one-tag group is collapsed. */
  lemma SingletonGroupKeepsSemicolon()
    ensures MakeRelationshipsStrings(Requiring([Ref("a"), OrGroup(["b"])])) == ["Requires 'a'; and 'b'"]
  {
    var items := [Ref("a"), OrGroup(["b"])];
    SingletonGroupKeepsSemicolonSpelling();
    Connectors();
    PlainRef("a", "'a'");
    PlainRef("b", "'b'");
    assert items[1].OrGroup?;
    Sentence(items, ["'a'", "'b'"]);
    Chunks2("Requires", "'a'", "'b'", ";", "and");
  }

  lemma NoDeduplicationSpelling()
    ensures "Requires " + "'t'" + ", and " + "'t'" == "Requires 't', and 't'"
  {
  }

  /** Repeated references are rendered as often as they are listed. */
  lemma NoDeduplication()
    ensures MakeRelationshipsStrings(Requiring([Ref("t"), Ref("t")])) == ["Requires 't', and 't'"]
  {
    var items := [Ref("t"), Ref("t")];
    NoDeduplicationSpelling();
    Connectors();
    PlainRef("t", "'t'");
    assert !HasNestedList(items);
    Sentence(items, ["'t'", "'t'"]);
    Chunks2("Requires", "'t'", "'t'", ",", "and");
  }
}
