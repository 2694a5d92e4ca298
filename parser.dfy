/**
 * Shapes of a processed tag configuration: the relationship lists a tag
 * declares and the tag record that the documentation renderer reads.
 */
module Parser {

  datatype Option<+T> = None | Some(value: T)

  /** A tag name, or a category name, which is recognised by its trailing '/'. */
  type Name = string

  /**
   * One entry of a relationship list: a single reference (all of the listed
   * entries are required), or an OR-group of alternatives (any one suffices).
   */
  datatype Item = Ref(name: Name) | OrGroup(names: seq<Name>)

  /** An ordered relationship list; the order is the order of rendering. */
  type RelationshipList = seq<Item>

  /**
   * A tag definition: its optional description and its six optional
   * relationship lists (`requirements` is the `requires` key, a keyword here).
   */
  datatype Tag = Tag(
    description: Option<string>,
    requirements: Option<RelationshipList>,
    similar: Option<RelationshipList>,
    related: Option<RelationshipList>,
    dissimilar: Option<RelationshipList>,
    conflicts: Option<RelationshipList>,
    supersedes: Option<RelationshipList>)

  /** A tag that declares nothing: the object literal `{}`. */
  const EmptyTag: Tag := Tag(None, None, None, None, None, None, None)
}
