/**
 * The selection state of the reaction picker and the five events that change
 * it: starting a spin, the spin's completion, choosing a category, picking an
 * emoji from a grid, and clicking the big emoji to show or hide the full grid.
 * Each event is an atomic update of the fields; the random draws arrive as
 * arguments (see module Shuffle) and the 2000 ms timer as the CompleteSpin step.
 */
module ReactionPicker {
  import Catalog
  import Shuffle

  datatype Option<T> = None | Some(value: T)

  /**
   * An emoji the widget may show as its big emoji: the placeholder, a catalog
   * entry, or an entry of some category.
   */
  predicate Displayable(e: string, emojis: seq<string>, categories: map<string, seq<string>>)
  {
    e == Catalog.Placeholder || e in emojis || exists c :: c in categories && e in categories[c]
  }

  /**
   * The emoji a grid cell can hand to SelectEmoji: the full grid is rendered
   * while showAll holds and lists the catalog; the category grid is rendered
   * while a category is selected and lists that category.
   */
  predicate GridOffers(e: string, emojis: seq<string>, categories: map<string, seq<string>>,
                       showAll: bool, selected: Option<string>)
  {
    || (showAll && e in emojis)
    || (selected.Some? && selected.value in categories && e in categories[selected.value])
  }

  /** Whatever a grid offers is an emoji the widget may display. */
  lemma GridOffersDisplayable(e: string, emojis: seq<string>, categories: map<string, seq<string>>,
                              showAll: bool, selected: Option<string>)
    requires GridOffers(e, emojis, categories, showAll, selected)
    ensures Displayable(e, emojis, categories)
  {
  }

  class Picker {
    /** The two data tables, fixed for the component's lifetime. */
    const emojis: seq<string>
    const categories: map<string, seq<string>>

    var currentEmoji: string
    var selectedCategory: Option<string>
    var showAllEmojis: bool
    var isSpinning: bool
    var spinningEmojis: seq<string>

    /**
     * The state invariant: a selected category is a real category, and the
     * spin preview is empty before the first spin and a preview of the
     * catalog from then on. While a spin is pending there is a preview and
     * the full grid is hidden: the spin hides it and nothing reopens it
     * before the spin completes.
     */
    ghost predicate Valid()
      reads this
    {
      && |emojis| == 30
      && (selectedCategory.Some? ==> selectedCategory.value in categories)
      && (spinningEmojis == [] || Shuffle.IsPreviewOf(spinningEmojis, emojis))
      && (isSpinning ==> spinningEmojis != [] && !showAllEmojis)
    }

    /** The big emoji is the placeholder, a catalog entry or a category entry. */
    ghost predicate ShowsKnownEmoji()
      reads this
    {
      Displayable(currentEmoji, emojis, categories)
    }

    /** The state the widget mounts with. */
    constructor ()
      ensures Valid() && ShowsKnownEmoji()
      ensures emojis == Catalog.Emojis && categories == Catalog.Categories
      ensures currentEmoji == Catalog.Placeholder
      ensures selectedCategory == None
      ensures !showAllEmojis && !isSpinning
      ensures spinningEmojis == []
    {
      emojis := Catalog.Emojis;
      categories := Catalog.Categories;
      currentEmoji := Catalog.Placeholder;
      selectedCategory := None;
      showAllEmojis := false;
      isSpinning := false;
      spinningEmojis := [];
      new;
      Catalog.CatalogSize();
      assert |emojis| == 30 && spinningEmojis == [] && selectedCategory == None;
    }

    /**
     * The "Random Expression" button; `shuffled` is the shuffled copy of the
     * catalog. The button is disabled while spinning, so then nothing changes
     * and no second completion gets scheduled. Otherwise the spin starts: the
     * category and the full grid are cleared, the big emoji stays as it is
     * until the spin completes, and the preview is the first 20 of the shuffle.
     */
    method StartSpin(shuffled: seq<string>)
      requires Valid()
      requires Shuffle.IsPermutationOf(shuffled, emojis)
      modifies this
      ensures Valid()
      ensures old(ShowsKnownEmoji()) ==> ShowsKnownEmoji()
      ensures old(isSpinning) ==> unchanged(this)
      ensures !old(isSpinning) ==>
        && isSpinning
        && selectedCategory == None
        && !showAllEmojis
        && currentEmoji == old(currentEmoji)
        && spinningEmojis == Shuffle.Preview(emojis, shuffled)
      ensures !old(isSpinning) ==>
        && spinningEmojis <= shuffled
        && |spinningEmojis| == 20
        && multiset(spinningEmojis) <= multiset(emojis)
    {
      if !isSpinning {
        isSpinning := true;
        selectedCategory := None;
        showAllEmojis := false;
        spinningEmojis := Shuffle.Preview(emojis, shuffled);
      }
    }

    /**
     * The spin's timer firing; `i` is the random index into the catalog. It
     * runs only while a spin is pending. The big emoji becomes that catalog
     * entry and the spin ends; the category, the grid flag and the preview
     * are left as they were, and the grid flag is still off from the start
     * of the spin.
     */
    method CompleteSpin(i: nat)
      requires Valid()
      requires isSpinning
      requires i < |emojis|
      modifies this
      ensures Valid() && ShowsKnownEmoji()
      ensures currentEmoji == emojis[i]
      ensures currentEmoji in emojis
      ensures !isSpinning && !showAllEmojis
      ensures selectedCategory == old(selectedCategory)
      ensures showAllEmojis == old(showAllEmojis)
      ensures spinningEmojis == old(spinningEmojis)
    {
      currentEmoji := Shuffle.PickAt(emojis, i);
      isSpinning := false;
    }

    /**
     * A category chip; `i` is the random index into that category. The chip
     * becomes the selected category, the full grid is hidden and the big emoji
     * becomes an entry of the category. The chips stay enabled while spinning,
     * so the spin state and its preview are untouched.
     */
    method SelectCategory(c: string, i: nat)
      requires Valid()
      requires c in categories
      requires i < |categories[c]|
      modifies this
      ensures Valid() && ShowsKnownEmoji()
      ensures selectedCategory == Some(c)
      ensures !showAllEmojis
      ensures currentEmoji == categories[c][i]
      ensures currentEmoji in categories[c]
      ensures isSpinning == old(isSpinning)
      ensures spinningEmojis == old(spinningEmojis)
    {
      selectedCategory := Some(c);
      showAllEmojis := false;
      currentEmoji := Shuffle.PickAt(categories[c], i);
    }

    /**
     * A grid cell: the big emoji becomes `e` and the full grid is hidden. The
     * selected category is not cleared. The argument is not checked, so the
     * big emoji stays a known one exactly when `e` is one; a cell of a grid on
     * screen always hands over a known emoji.
     */
    method SelectEmoji(e: string)
      requires Valid()
      modifies this
      ensures Valid()
      ensures currentEmoji == e
      ensures !showAllEmojis
      ensures selectedCategory == old(selectedCategory)
      ensures isSpinning == old(isSpinning)
      ensures spinningEmojis == old(spinningEmojis)
      ensures ShowsKnownEmoji() <==> Displayable(e, emojis, categories)
      ensures old(GridOffers(e, emojis, categories, showAllEmojis, selectedCategory)) ==> ShowsKnownEmoji()
    {
      if GridOffers(e, emojis, categories, showAllEmojis, selectedCategory) {
        GridOffersDisplayable(e, emojis, categories, showAllEmojis, selectedCategory);
      }
      currentEmoji := e;
      showAllEmojis := false;
    }

    /**
     * A click on the big emoji: shows or hides the full grid, and nothing
     * else. While spinning the big emoji is replaced by the animation and the
     * click does nothing.
     */
    method ToggleGrid()
      requires Valid()
      modifies this
      ensures Valid()
      ensures old(isSpinning) ==> unchanged(this)
      ensures !old(isSpinning) ==> showAllEmojis == !old(showAllEmojis)
      ensures currentEmoji == old(currentEmoji)
      ensures selectedCategory == old(selectedCategory)
      ensures isSpinning == old(isSpinning)
      ensures spinningEmojis == old(spinningEmojis)
    {
      if !isSpinning {
        showAllEmojis := !showAllEmojis;
      }
    }
  }

  /**
   * For every shuffle and every final index: a second click on the random
   * button during a spin changes nothing, and the spin's completion leaves a
   * catalog entry on screen and the spin over.
   */
  method SpinScenario(p: Picker, shuffled: seq<string>, i: nat)
    requires p.Valid() && !p.isSpinning
    requires Shuffle.IsPermutationOf(shuffled, p.emojis)
    requires i < |p.emojis|
    modifies p
  {
    p.StartSpin(shuffled);
    assert p.isSpinning && |p.spinningEmojis| == 20;
    var preview := p.spinningEmojis;
    p.StartSpin(shuffled);
    assert p.isSpinning && p.spinningEmojis == preview;
    p.CompleteSpin(i);
    assert !p.isSpinning && p.currentEmoji in p.emojis;
  }

  /**
   * The widget mounts with the placeholder on screen and nothing selected;
   * the "angry" chip then puts one of the eight angry emoji on screen,
   * whichever index is drawn.
   */
  method AngryScenario(i: nat)
    requires i < 8
  {
    var p := new Picker();
    assert p.currentEmoji == "🎬" && p.selectedCategory == None;
    assert !p.showAllEmojis && !p.isSpinning;
    p.SelectCategory("angry", i);
    assert p.selectedCategory == Some("angry");
    assert p.currentEmoji in ["😠", "😡", "🤬", "👿", "😤", "😾", "💢", "💥"];
  }

  /**
   * With a category selected and no spin running, the big emoji opens the
   * full grid, a pick from it closes the grid and keeps the category, and two
   * more clicks on the big emoji leave the grid closed again.
   */
  method GridScenario(p: Picker, e: string)
    requires p.Valid() && !p.isSpinning && p.selectedCategory.Some? && !p.showAllEmojis
    requires e in p.emojis
    modifies p
  {
    var category := p.selectedCategory;
    p.ToggleGrid();
    assert p.showAllEmojis;
    p.SelectEmoji(e);
    assert p.currentEmoji == e && !p.showAllEmojis && p.selectedCategory == category;
    assert p.ShowsKnownEmoji();
    p.ToggleGrid();
    p.ToggleGrid();
    assert !p.showAllEmojis && p.currentEmoji == e;
  }
}
