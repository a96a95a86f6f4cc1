/**
 * The notes accordion of a dashboard widget card
 * (`WidgetCard` in src/components/WidgetCard.tsx).
 *
 * The card keeps one piece of state, the id of the expanded section or
 * nothing. Each section renders a toggle and a content element whose ids are
 * derived from the section id by a suffix.
 */
module WidgetCard {
  import opened Wrappers

  /** An accordion section; its content node is not modelled. */
  datatype Section = Section(id: string, title: string)

  /** What one accordion item renders: its expansion flag and element ids. */
  datatype SectionView = SectionView(isExpanded: bool, toggleId: string, title: string, contentId: string, labelledBy: string)

  /** The `expandedSections` state: the id of the expanded section, if any. */
  type Expanded = Option<string>

  /** `useState<string | undefined>(undefined)`. */
  const Initial: Expanded := None

  /** `isExpanded={expandedSections === section.id}`. */
  predicate IsExpanded(state: Expanded, id: string)
  {
    state == Some(id)
  }

  /** The toggle's `onClick`: collapse the open section, or open this one. */
  function Toggle(state: Expanded, id: string): (s: Expanded)
    ensures IsExpanded(state, id) ==> s == None
    ensures !IsExpanded(state, id) ==> s == Some(id)
  {
    if state == Some(id) then None else Some(id)
  }

  /** The state after a sequence of toggle clicks, oldest first. */
  function Run(state: Expanded, clicks: seq<string>): Expanded
    decreases |clicks|
  {
    if |clicks| == 0 then state else Run(Toggle(state, clicks[0]), clicks[1..])
  }

  /** `n` clicks on the same toggle. */
  function Repeat(id: string, n: nat): (r: seq<string>)
    ensures |r| == n
    ensures forall m | 0 <= m < n :: r[m] == id
  {
    if n == 0 then [] else [id] + Repeat(id, n - 1)
  }

  const ToggleSuffix := "-toggle"
  const ContentSuffix := "-content"

  /** `${section.id}-toggle`. */
  function ToggleId(id: string): (r: string)
    ensures |r| == |id| + |ToggleSuffix|
    ensures r[..|id|] == id
    ensures r[|id|..] == ToggleSuffix
  {
    id + ToggleSuffix
  }

  /** `${section.id}-content`. */
  function ContentId(id: string): (r: string)
    ensures |r| == |id| + |ContentSuffix|
    ensures r[..|id|] == id
    ensures r[|id|..] == ContentSuffix
  {
    id + ContentSuffix
  }

  /** What the accordion renders for the given state, one view per section. */
  function Render(state: Expanded, sections: seq<Section>): (views: seq<SectionView>)
    ensures |views| == |sections|
    ensures forall k | 0 <= k < |views| :: views[k].labelledBy == views[k].toggleId
    ensures forall k | 0 <= k < |views| :: views[k].isExpanded <==> state == Some(sections[k].id)
    ensures forall k | 0 <= k < |views| ::
      && views[k].toggleId == ToggleId(sections[k].id)
      && views[k].contentId == ContentId(sections[k].id)
      && views[k].title == sections[k].title
  {
    seq(|sections|, k requires 0 <= k < |sections| =>
      var s := sections[k];
      SectionView(IsExpanded(state, s.id), ToggleId(s.id), s.title, ContentId(s.id), ToggleId(s.id)))
  }

  /** Section ids are pairwise distinct. */
  predicate DistinctIds(sections: seq<Section>)
  {
    forall k1, k2 | 0 <= k1 < k2 < |sections| :: sections[k1].id != sections[k2].id
  }

  /** At most one section is expanded in any state. */
  lemma AtMostOneExpanded(state: Expanded, a: string, b: string)
    requires IsExpanded(state, a) && IsExpanded(state, b)
    ensures a == b
  {
  }

  /** Initially no section is expanded. */
  lemma InitiallyCollapsed(id: string)
    ensures !IsExpanded(Initial, id)
  {
  }

  /** A click leaves expanded at most the clicked section, and collapses it iff it was open. */
  lemma ClickEffect(state: Expanded, id: string, other: string)
    requires other != id
    ensures !IsExpanded(Toggle(state, id), other)
    ensures IsExpanded(Toggle(state, id), id) <==> !IsExpanded(state, id)
  {
  }

  /**
   * Two clicks on the same toggle restore the state exactly when that
   * section or none was open; from another open section they collapse all.
   */
  lemma DoubleClick(state: Expanded, id: string)
    ensures Toggle(Toggle(state, id), id) == state <==> (state == None || state == Some(id))
    ensures state != None && state != Some(id) ==> Toggle(Toggle(state, id), id) == None
  {
  }

  /** After a non-empty run of clicks, only the last clicked section can be open. */
  lemma {:induction false} LastClickDecides(state: Expanded, clicks: seq<string>)
    requires |clicks| > 0
    ensures Run(state, clicks) == None || Run(state, clicks) == Some(clicks[|clicks| - 1])
    decreases |clicks|
  {
    if |clicks| > 1 {
      LastClickDecides(Toggle(state, clicks[0]), clicks[1..]);
      assert clicks[1..][|clicks[1..]| - 1] == clicks[|clicks| - 1];
    }
  }

  /** Clicking one toggle `n` times from the initial state leaves it open iff `n` is odd. */
  lemma {:induction false} RepeatedClicks(id: string, n: nat)
    ensures IsExpanded(Run(Initial, Repeat(id, n)), id) <==> n % 2 == 1
    ensures n % 2 == 0 ==> Run(Initial, Repeat(id, n)) == Initial
  {
    if n >= 2 {
      RepeatedClicks(id, n - 2);
      var rest := Repeat(id, n - 2);
      assert Repeat(id, n) == [id] + ([id] + rest);
      assert Repeat(id, n)[1..] == [id] + rest;
      assert ([id] + rest)[1..] == rest;
    } else if n == 1 {
      assert Repeat(id, 1)[1..] == [];
    }
  }

  /** Suffix appending is injective, so distinct sections get distinct toggle ids. */
  lemma ToggleIdInjective(a: string, b: string)
    requires ToggleId(a) == ToggleId(b)
    ensures a == b
  {
    assert |a| == |b|;
    assert a == ToggleId(a)[..|a|];
  }

  /** Distinct sections get distinct content ids. */
  lemma ContentIdInjective(a: string, b: string)
    requires ContentId(a) == ContentId(b)
    ensures a == b
  {
    assert |a| == |b|;
    assert a == ContentId(a)[..|a|];
  }

  /** A toggle id never equals a content id: the last characters differ. */
  lemma ToggleNeverContent(a: string, b: string)
    ensures ToggleId(a) != ContentId(b)
  {
    assert ToggleId(a)[|ToggleId(a)| - 1] == 'e';
    assert ContentId(b)[|ContentId(b)| - 1] == 't';
  }

  /**
   * With distinct section ids, the rendered accordion expands at most one
   * item (exactly the one whose id is the state) and its element ids are
   * pairwise distinct.
   */
  lemma {:induction false} RenderWellFormed(state: Expanded, sections: seq<Section>)
    requires DistinctIds(sections)
    ensures forall k1, k2 | 0 <= k1 < k2 < |sections| ::
      !(Render(state, sections)[k1].isExpanded && Render(state, sections)[k2].isExpanded)
    ensures forall k1, k2 | 0 <= k1 < k2 < |sections| ::
      Render(state, sections)[k1].toggleId != Render(state, sections)[k2].toggleId
    ensures forall k1, k2 | 0 <= k1 < k2 < |sections| ::
      Render(state, sections)[k1].contentId != Render(state, sections)[k2].contentId
    ensures forall k1, k2 | 0 <= k1 < |sections| && 0 <= k2 < |sections| ::
      Render(state, sections)[k1].toggleId != Render(state, sections)[k2].contentId
  {
    var views := Render(state, sections);
    forall k1, k2 | 0 <= k1 < k2 < |sections|
      ensures views[k1].toggleId != views[k2].toggleId
      ensures views[k1].contentId != views[k2].contentId
    {
      if views[k1].toggleId == views[k2].toggleId {
        ToggleIdInjective(sections[k1].id, sections[k2].id);
      }
      if views[k1].contentId == views[k2].contentId {
        ContentIdInjective(sections[k1].id, sections[k2].id);
      }
    }
    forall k1, k2 | 0 <= k1 < |sections| && 0 <= k2 < |sections|
      ensures views[k1].toggleId != views[k2].contentId
    {
      ToggleNeverContent(sections[k1].id, sections[k2].id);
    }
  }
}
