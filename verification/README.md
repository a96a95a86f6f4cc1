# perses-exploration: layout merge, accordion state and theme mapping

A Dafny model of the three pieces of local logic in a demo dashboard that
embeds Perses chart widgets in a PatternFly shell:

- **GridLayout** (`grid_layout.dfy`) — `handleLayoutChange` in
  `src/layout/Layout.tsx`. The grid engine reports geometry records
  (`LayoutDef`: id `i`, `x`, `y`, `w`, `h`). The handler maps over the
  incoming records. Each one is spread over the first existing entry with the
  same id, so the entry keeps its component `C` and takes the new geometry.
  A record with an unknown id passes through without a component.
- **WidgetCard** (`widget_card.dfy`) — the notes accordion of
  `src/components/WidgetCard.tsx`. Its state is an `Option<string>` naming the
  expanded section, and a toggle click either collapses that section or
  expands the clicked one. Toggle and content element ids are the section id
  with `-toggle` / `-content` appended.
- **PatternflyTheme** (`patternfly_theme.dfy`) — `getTheme` and
  `mapPatterflyThemeToMUI` in `src/hooks/usePatternflyTheme.ts`. The theme is
  dark iff the root element's class set contains one of three dark-theme
  class names. The MUI theme options are a record in which only the text
  colour depends on the theme.
- **Wrappers** (`wrappers.dfy`) — `Option`, used for `T | undefined`.

Design tokens (`t_color_white`, `chart_color_blue_100`, …) are opaque
`Token(name)` values, and CSS literals are `Css(text)`. The root element's
class list, which the source reads from the document, is a parameter of
`GetTheme`.

The merge follows the incoming list. The output has the length and order
of the incoming records, not of the existing layout. Existing entries the
engine does not report are dropped. Records with unknown ids are kept, bare.
`PartialReportDropsOthers` shows this on a two-widget example: reporting only
`B` leaves only `B`. `AlignedUpdateKeepsComponents` covers the case where
every widget is reported, in the layout's order, with unique ids: then each
entry keeps its component and takes the new geometry. Idempotence
(`Idempotent`) holds even when incoming ids repeat, because the component an
output entry gets depends on its id alone.

## Model

| member | source | states |
|---|---|---|
| GridLayout.FindIndex | src/layout/Layout.tsx:47 | `layout.find` by id yields nothing iff no entry has the id, and otherwise the FIRST entry with it |
| GridLayout.Spread | src/layout/Layout.tsx:48 | `{ ...existingItem, ...item }` has exactly the incoming geometry and id, and the existing entry's component |
| GridLayout.MergeItem | src/layout/Layout.tsx:46-49 | one merged record: incoming geometry; component of the first entry with that id; the bare record when no entry has the id |
| GridLayout.HandleLayoutChange | src/layout/Layout.tsx:44-51 | output length is the incoming length; entry k has record k's id and geometry, the first matching entry's component, or is record k itself when unmatched |
| GridLayout.FirstMatchExists | src/layout/Layout.tsx:47 | whenever some entry has the id, a first such entry exists |
| GridLayout.ComponentDependsOnIdOnly | src/layout/Layout.tsx:47-48 | two incoming records with the same id receive the same component |
| GridLayout.OutputIdsAreIncomingIds | src/layout/Layout.tsx:46 | an id occurs in the output iff it occurs in the incoming list (both directions) |
| GridLayout.UnreportedEntryDropped | src/layout/Layout.tsx:46 | an existing entry whose id the engine did not report is absent from the output |
| GridLayout.RenderedIffKnown | src/layout/Layout.tsx:39-50 | if every existing entry has a component, output entry k has one iff record k's id is known; the cast at line 50 hides the bare ones |
| GridLayout.FollowsIncomingOrder | src/layout/Layout.tsx:46 | reordering the incoming records reorders the output the same way: output follows the incoming order |
| GridLayout.Idempotent | src/layout/Layout.tsx:46-48 | merging the result again with the same incoming records returns the same result |
| GridLayout.AlignedUpdateKeepsComponents | src/layout/Layout.tsx:46-48 | when every widget is reported in layout order with unique ids, entry k keeps its component and takes record k's geometry |
| GridLayout.PartialReportDropsOthers | src/layout/Layout.tsx:44-51 | with widgets A and B, reporting only B yields only B, with B's component and the new geometry |
| GridLayout.UnknownReportPassesThrough | src/layout/Layout.tsx:48 | a record with an unknown id comes back as it is, without a component, and known widgets are dropped |
| WidgetCard.Toggle | src/components/WidgetCard.tsx:30-36 | clicking the open section's toggle collapses all; clicking any other toggle opens exactly that section |
| WidgetCard.Render | src/components/WidgetCard.tsx:27-41 | one item per section; an item is expanded iff the state names its section; item k's toggle id, content id and title are section k's id plus `-toggle`, its id plus `-content`, and its title; each content is labelled by its own toggle id |
| WidgetCard.ToggleId | src/components/WidgetCard.tsx:37 | a toggle id is the section id followed by exactly `-toggle` |
| WidgetCard.ContentId | src/components/WidgetCard.tsx:41 | a content id is the section id followed by exactly `-content` |
| WidgetCard.InitiallyCollapsed | src/components/WidgetCard.tsx:17 | no section is expanded in the initial state |
| WidgetCard.AtMostOneExpanded | src/components/WidgetCard.tsx:17-28 | two sections expanded in one state are the same section |
| WidgetCard.ClickEffect | src/components/WidgetCard.tsx:30-36 | after a click no other section is open, and the clicked one is open iff it was closed |
| WidgetCard.DoubleClick | src/components/WidgetCard.tsx:30-36 | two clicks on one toggle restore the state iff it or nothing was open; otherwise they collapse everything |
| WidgetCard.LastClickDecides | src/components/WidgetCard.tsx:30-36 | after any non-empty click sequence, nothing or only the last-clicked section is open |
| WidgetCard.RepeatedClicks | src/components/WidgetCard.tsx:17-36 | from the initial state, n clicks on one toggle leave it open iff n is odd, and an even count returns to the initial state |
| WidgetCard.ToggleIdInjective | src/components/WidgetCard.tsx:37 | distinct section ids give distinct toggle ids |
| WidgetCard.ContentIdInjective | src/components/WidgetCard.tsx:41 | distinct section ids give distinct content ids |
| WidgetCard.ToggleNeverContent | src/components/WidgetCard.tsx:37-41 | no toggle id equals any content id |
| WidgetCard.RenderWellFormed | src/components/WidgetCard.tsx:27-41 | with distinct section ids at most one item is expanded, and all toggle and content ids on the card are pairwise distinct |
| PatternflyTheme.GetTheme | src/hooks/usePatternflyTheme.ts:7-24 | dark iff the class set meets {pf-theme-dark, pf-v5-theme-dark, pf-v6-theme-dark}, light otherwise |
| PatternflyTheme.GetThemeMonotone | src/hooks/usePatternflyTheme.ts:18-24 | adding classes to the root element never turns dark into light |
| PatternflyTheme.GetThemeIgnoresOtherClasses | src/hooks/usePatternflyTheme.ts:7-24 | classes other than the three dark-theme names never change the theme |
| PatternflyTheme.MapPatternflyThemeToMui | src/hooks/usePatternflyTheme.ts:26-161 | contrast text, all secondary and text slots, and the clock, SVG-icon and select-icon colours are white when dark and gray-95 when light; all background slots are the primary-background variable; primary is blue 100/200/300 |
| PatternflyTheme.TextColourSeparatesThemes | src/hooks/usePatternflyTheme.ts:27-28 | the two themes have different text colours |
| PatternflyTheme.ThemesDifferOnlyInTextColour | src/hooks/usePatternflyTheme.ts:26-161 | either theme's options are the other's with the text-colour slots recoloured: nothing else depends on the theme |

## Left out

- Rendering: the grid engine (`ReactGridLayout`), the resize observers, the drag handle and all JSX in `src/layout/Layout.tsx` (lines 5-33, 53-78). The engine's drag/resize behaviour is external.
- The call to `onLayoutChange` (line 50) is the function's result; the existing `layout` cannot be changed, because the model works on immutable values.
- The optional fields of react-grid-layout's `Layout` record (`minW`, `maxW`, `static`, `moved`, …) are not modelled. The spread would take each of them from the incoming record when present and from the existing entry otherwise.
- `AccordionSection.content` and the card's title and children are rendering only.
- `usePatternFlyTheme` (lines 167-186): the `matchMedia` subscription is browser I/O, and `persesGetTheme` (with the `shape` override) is a call into the dashboard library.
- The library's base `typography` spread at the top of the typography block (line 33) comes from the dashboard library and is not modelled. Token values are opaque names, not the hex strings the token package defines.
- TextColourSeparatesThemes: distinguishes the themes by token name; that the white and gray-95 tokens also resolve to different colours is assumed of the token package, not proved.
- Nested selector keys in the component overrides (`'&.MuiCardHeader-root'`, `'&:last-child'`, …) are flattened into record fields.
- The chart widget files, `src/App.tsx`, `src/components/PersesWrapper.tsx`, `src/components/ThemeToggle.tsx`, `src/perses/dataSourceApi.ts` and `src/serverMock/handlers.ts`: constant library configuration, provider wiring, a stub and an HTTP mock. They have no local logic.
- `toggleWidth` in the scatter and gauge widgets is a two-value width toggle, and `useTimeRange` parses constant dates. Both are outside the core.
