# Relationship sentences for tag definitions

This project models the documentation renderer of the tag list: the function
`makeRelationshipsStrings`, which turns a tag's `requires` list into an
English sentence such as

    Requires 't1'; 't2'; and either 't3', or 't4'

A `requires` list is an ordered list of items. Each item is either a bare
reference, which is required outright, or an OR-group of alternatives, any one
of which suffices. A reference names a tag, or a whole category when it ends
in `/`.

The model has three modules.

- `Parser` (`parser.dfy`) holds the data shapes. An `Item` is `Ref(name)` or
  `OrGroup(names)`; a relationship list is a `seq<Item>`; a `Tag` is a record
  with an optional description and the six optional relationship lists. The
  `requires` key is named `requirements`, because `requires` is a keyword in
  Dafny.
- `Documentation` (`documentation.dfy`) is the renderer. The source's two
  `reduce` loops are left folds that carry the item index. They become
  `FoldRequires` and `FoldGroup`, which render the first `n` items or members.
  The delimiter, the `" and"` before the last item, the collapse of a one-tag
  OR-group, the AND-item texts, the `either` / `any of` opening, and the member
  texts are separate functions. `ListPhrase` is an independent definition of
  the serial-list wording: each part after a space, parts separated by a
  delimiter, and a conjunction before the last part. The lemmas prove that
  both folds equal an opening word followed by a `ListPhrase`, and state the
  wording rules.
- `DocumentationExamples` (`documentation_examples.dfy`) proves the renderer's
  output on every input of the project's documentation test, plus a few
  boundary cases. Each example states the test's expected string as one
  literal, except the longest (`Mixed`), whose expected string is written as
  its pieces: the opening word, the item texts and the separators. A small
  spelling lemma beside each example shows that those pieces join to the
  literal.

The test file and the code disagree on two points, and the model follows the
code.

- The test calls `makeRelationshipsString` and compares the result with a
  plain string. The code returns an array holding at most one string.
- The test expects `""` for a tag without `requires`. The code returns an
  empty array (`src/documentation.ts:59`). So `MakeRelationshipsStrings`
  returns `seq<string>`, and gives `[]` in that case.

## Model

| member | source | states |
|---|---|---|
| Documentation.MakeRelationshipsStrings | src/documentation.ts:10-60 | the result is empty exactly when the tag has no `requires` list; otherwise it is one string that begins with "Requires"; an empty list gives exactly `["Requires"]` |
| Documentation.FoldRequires | src/documentation.ts:11-57 | the outer reduce after any number of steps still begins with its initial value "Requires" |
| Documentation.FoldGroup | src/documentation.ts:35-47 | the inner reduce after any number of steps still begins with the group's opening word |
| Documentation.StripMarker | src/documentation.ts:40-43 | dropping the last character of a category reference leaves the name that, followed by '/', is the reference |
| Documentation.RenderRef | src/documentation.ts:49-54 | no contract; described by RefTextRecovers and RefRenderingInjective |
| Documentation.GroupPrimer | src/documentation.ts:47 | no contract; described by GroupOpening |
| Documentation.MemberSeparator | src/documentation.ts:36-38 | no contract; described by GroupPrefix and GroupSentence |
| Documentation.MemberText | src/documentation.ts:39-46 | no contract; described by CategoryMemberWording |
| Documentation.RenderGroup | src/documentation.ts:35-47 | no contract; described by GroupSentence and GroupOpening |
| Documentation.Collapse | src/documentation.ts:25-32 | no contract; described by SingletonCollapse and CollapseKeepsSemicolons |
| Documentation.RenderItem | src/documentation.ts:25-55 | no contract; described by SingletonCollapse, RefTextRecovers and GroupSentence |
| Documentation.HasNestedList | src/documentation.ts:14-20 | no contract; described by RequiresSentence and CollapseKeepsSemicolons |
| Documentation.Delimiter | src/documentation.ts:14-20 | no contract; described by RequiresSentence and CollapseKeepsSemicolons |
| Documentation.ItemSeparator | src/documentation.ts:18-24 | no contract; described by RequiresPrefix and RequiresSentence |
| Documentation.RequiresPrefix | src/documentation.ts:18-24 | after the first n items (n not the last), the text is "Requires " and the n item texts joined by the delimiter and a space |
| Documentation.RequiresSentence | src/documentation.ts:11-57 | the whole sentence is "Requires", then each item text after a space, in input order, separated by the delimiter, with " and" after the last delimiter; one item gives "Requires <text>", none gives "Requires" |
| Documentation.RelationshipsSentence | src/documentation.ts:10-60 | the full result through the reference wording: `[]` without `requires`, else the one sentence above |
| Documentation.OnlyRequiresMatters | src/documentation.ts:11 | two tags with the same `requires` list get the same result, whatever their other fields |
| Documentation.GroupPrefix | src/documentation.ts:35-46 | after the first n members (n not the last), a group reads as its opening word, a space and the member texts joined by ", " |
| Documentation.GroupSentence | src/documentation.ts:35-47 | an OR-group reads as its opening word followed by each member text after a space, in order, separated by "," with ", or" before the last member |
| Documentation.GroupOpening | src/documentation.ts:47 | a group's text begins with "either" exactly when it has two members, and with "any of" exactly when it does not |
| Documentation.CategoryMemberWording | src/documentation.ts:39-46 | a category member reads "category '<name>'" exactly when it is first in its group, and begins with "any of " exactly when it is not |
| Documentation.SingletonCollapse | src/documentation.ts:26-32 | a one-name OR-group renders exactly like the bare name if and only if the name is not a category reference |
| Documentation.CollapseKeepsSemicolons | src/documentation.ts:15-32 | the delimiter is chosen on the list as written: a list holding a one-tag OR-group is joined with ";" even though that group renders as a bare name |
| Documentation.RefTextRecovers | src/documentation.ts:49-54 | for a category, a bare reference's text begins with "all tags from category '", ends with a quote, and holds the category name between them; for a tag, it begins and ends with a quote and holds the tag name between them |
| Documentation.RefRenderingInjective | src/documentation.ts:49-54 | two bare references with the same text are the same reference |
| DocumentationExamples.NoRequires | src/documentation.ts:59 | a tag without `requires` gives no strings |
| DocumentationExamples.EmptyRequires | src/documentation.ts:57 | an empty `requires` list gives `["Requires"]` |
| DocumentationExamples.OneTag | tests/documentation.spec.ts:8 | `["t"]` gives "Requires 't'" |
| DocumentationExamples.TwoTags | tests/documentation.spec.ts:9 | `["t1", "t2"]` gives "Requires 't1', and 't2'" |
| DocumentationExamples.EitherT3T4 | tests/documentation.spec.ts:11-12 | the group `["t3", "t4"]` renders as "either 't3', or 't4'" |
| DocumentationExamples.TagsAndGroup | tests/documentation.spec.ts:11-12 | `["t1", "t2", ["t3", "t4"]]` gives "Requires 't1'; 't2'; and either 't3', or 't4'" |
| DocumentationExamples.AnyOfThreeTags | tests/documentation.spec.ts:15-16 | the group `["t1", "t2", "t3"]` renders as "any of 't1', 't2', or 't3'" |
| DocumentationExamples.EitherT4T5 | tests/documentation.spec.ts:15-16 | the group `["t4", "t5"]` renders as "either 't4', or 't5'" |
| DocumentationExamples.TwoGroups | tests/documentation.spec.ts:15-16 | `[["t1", "t2", "t3"], ["t4", "t5"]]` gives "Requires any of 't1', 't2', or 't3'; and either 't4', or 't5'" |
| DocumentationExamples.WholeCategory | tests/documentation.spec.ts:19-20 | `["c/"]` gives "Requires all tags from category 'c'" |
| DocumentationExamples.TagAndCategory | tests/documentation.spec.ts:23-24 | `["t", "c/"]` gives "Requires 't', and all tags from category 'c'" |
| DocumentationExamples.AnyOfCategory | tests/documentation.spec.ts:27-28 | the group `["c/"]` renders as "any of category 'c'" |
| DocumentationExamples.CategoryGroup | tests/documentation.spec.ts:27-28 | `[["c/"]]` gives "Requires any of category 'c'": a one-category group is not collapsed |
| DocumentationExamples.EitherTagOrCategory | tests/documentation.spec.ts:31-32 | the group `["t", "c/"]` renders as "either 't', or any of category 'c'" |
| DocumentationExamples.TagOrCategory | tests/documentation.spec.ts:31-32 | `[["t", "c/"]]` gives "Requires either 't', or any of category 'c'" |
| DocumentationExamples.EitherT2T3 | tests/documentation.spec.ts:35-41 | the group `["t2", "t3"]` renders as "either 't2', or 't3'" |
| DocumentationExamples.AnyOfCategoriesAndTag | tests/documentation.spec.ts:35-41 | the group `["c2/", "t4", "c3/"]` renders as "any of category 'c2', 't4', or any of category 'c3'" |
| DocumentationExamples.Mixed | tests/documentation.spec.ts:35-41 | `["t1", ["t2", "t3"], "c1/", ["c2/", "t4", "c3/"]]` gives "Requires 't1'; either 't2', or 't3'; all tags from category 'c1'; and any of category 'c2', 't4', or any of category 'c3'" |
| DocumentationExamples.SingletonGroup | tests/documentation.spec.ts:43 | `[["t"]]` gives "Requires 't'" |
| DocumentationExamples.SingletonGroupKeepsSemicolon | src/documentation.ts:15-32 | `["a", ["b"]]` gives "Requires 'a'; and 'b'": the semicolon stays although the group collapses |
| DocumentationExamples.NoDeduplication | src/documentation.ts:56 | `["t", "t"]` gives "Requires 't', and 't'": repeated references are not merged |

## Left out

- `parseConfig` (`src/parser.ts:67-69`) is not part of this model. It is an unfinished stub around a foreign TOML parser. `src/parser.ts` serves only for the shape of the data.
- The permissions and `max` fields of tags and categories (`src/parser.ts:8-14`, `36-41`) are left out, because the renderer never reads them.
- `src/index.ts` (page lookup, HTML injection, event listeners) and `webpack.config.js` (build configuration) are left out: they are user-interface and build plumbing.
- The other five relationship lists are carried in `Tag` but never rendered, as in the source, which renders only `requires`. Inverse resolution of relationships and a whole-collection documentation pass do not exist in the modelled code.
- Strings are sequences of characters. The source's UTF-16 code units, and JavaScript's `endsWith` and `slice` on them, are taken to agree with character indexing.
- The item type admits only the shapes the source's type allows. Values of other runtime types, which JavaScript would still accept, are not modelled.
