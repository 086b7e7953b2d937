/**
 * The two fixed data tables of the reaction picker: the full catalog of
 * reaction emoji and the map from category name to that category's emoji.
 * Both are immutable; the catalog is what the random spin draws from and what
 * the full grid offers, the categories are what the category chips draw from.
 */
module Catalog {

  /** The emoji shown before anything has been picked. */
  const Placeholder: string := "🎬"

  /** The full catalog, in the order the full grid shows it. */
  const Emojis: seq<string> := [
    "😂", "😆", "😅", "🤣", "😊", "😎", "😍", "🥰", "😘", "😋",
    "🤔", "🧐", "😮", "😲", "😳", "🥺", "😢", "😭", "😠", "😡",
    "🤬", "🤢", "🤮", "😱", "😵", "🥴", "🤪", "😜", "🙄", "😬"
  ]

  /** The category names, in the order the category chips are laid out. */
  const CategoryNames: seq<string> :=
    ["happy", "love", "sad", "angry", "surprised", "disgusted", "funny", "confused"]

  /** Each category's emoji, in the order its grid shows them. */
  const Categories: map<string, seq<string>> := map[
    "happy" := ["😀", "😃", "😄", "😁", "😆", "😅", "🤣", "😂", "🙂", "😊", "😇"],
    "love" := ["😍", "🥰", "😘", "😗", "😙", "😚", "😻", "💘", "💝", "💖", "💗"],
    "sad" := ["😢", "😭", "😞", "😔", "😟", "😕", "🙁", "☹️", "😣", "😖", "😫"],
    "angry" := ["😠", "😡", "🤬", "👿", "😤", "😾", "💢", "💥"],
    "surprised" := ["😮", "😲", "😯", "😦", "😧", "😨", "😱", "🙀"],
    "disgusted" := ["🤢", "🤮", "😖", "😫", "😩", "😤"],
    "funny" := ["🤪", "😜", "😝", "😛", "😋", "🤣", "😂", "😹"],
    "confused" := ["🤔", "🧐", "😕", "😟", "🤨", "🙄", "😒", "😑"]
  ]

  /** The catalog holds 30 entries, so a spin preview is 20 of them. */
  lemma CatalogSize()
    ensures |Emojis| == 30
  {
  }

  /**
   * The chips list exactly the keys of the category map, each once, so every
   * chip click names a category and every category has a chip.
   */
  lemma ChipsAreCategories()
    ensures forall i :: 0 <= i < |CategoryNames| ==> CategoryNames[i] in Categories
    ensures forall c :: c in Categories ==> c in CategoryNames
    ensures forall i, j :: 0 <= i < j < |CategoryNames| ==> CategoryNames[i] != CategoryNames[j]
  {
  }

  /**
   * No category is empty, so a random index into a category always names an
   * emoji of it.
   */
  lemma CategoriesNonEmpty()
    ensures forall c :: c in Categories ==> |Categories[c]| > 0
  {
  }
}
