# VCS Gutter marker command, modelled in Dafny

VCS Gutter is a Sublime Text plugin that draws version-control change markers in the
editor gutter. Its `vcs_gutter` window command takes three lists of 1-based line numbers
from a diff (inserted, changed, and "deleted before line N") and registers one marker set
per category in the view. The only real logic is in `lines_removed`, which splits the
deletion positions into three categories:

- `deleted_top`: a deletion just before line N, marked at the top of line N;
- `deleted_bottom`: the line N - 1 above such a deletion, marked at its bottom edge;
- `deleted_dual`: a line that was in both lists, marked at both edges.

This project models that command:

- `lists.dfy` (module `Lists`): Python's `list.remove` as a function on values
  (`RemoveFirst`, where `None` means ValueError), and a mutable list object `IntList`
  whose `Remove` method is proved against it. The same object is shared by every name that
  refers to it, which is how the aliasing `top_lines = lines` is modelled.
- `classifier.dfy` (module `Classifier`): the classifier on values. It gives the bottom
  candidates, the dual list of the first loop, the removal loop with its ValueError path,
  and `Classify`, the whole outcome. Lemmas prove the classification properties.
- `editor.dfy` (module `Editor`): the editor surface. A `View` has an uninterpreted
  `textPoint(row, col)` and a table from key to registered `Marker`. `EraseRegions` and
  `AddRegions` replace entries of that table.
- `vcs_gutter.dfy` (module `VcsGutter`): the command. It has the naming rules (key, scope,
  icon path, flags), the line-to-region mapping, and the class `VcsGutterCommand` with
  `ClearAll`, `LinesToRegions`, `BindIcons`, `LinesRemoved` and `Run`. The two loops of
  `lines_removed` are the methods `CollectDual` and `RemoveEach`, which `LinesRemoved` calls
  in order.

These behaviours of the code shape the model:

- The classifier is not a pure, total function. `lines_removed` shrinks the caller's list
  in place (`top_lines = lines`, vcs_gutter.py:58). It can also raise ValueError when an
  entry is repeated: for `[3, 3, 4]` the second `bottom_lines.remove(3)` fails. `LinesRemoved`
  and `Run` state both effects, and `Classify` keeps the lists as they are when the error is
  raised.
- A repeated entry does not always raise. For `[3, 4, 4]` every `remove` succeeds, yet the
  final bottom list still holds a 3 that is also dual (`ExampleRepeatCompletes`). The three
  lists are a clean partition only for input without repeats, which is why `ClassifyDistinct`
  requires `Distinct`.
- The minimap flags depend on the host version as well as on the setting
  (`ST3 and _show_in_minimap`, vcs_gutter.py:88).

## Model

| member | source | states |
|---|---|---|
| `Lists.RemoveFirst` | vcs_gutter.py:65-66 | value-level `list.remove(x)`: the list without its first `x`, or `None` where Python raises ValueError; its properties are `RemoveFirstSpec`, `RemoveFirstAt` and `RemoveFirstDistinct` |
| `Lists.RemoveFirstSpec` | vcs_gutter.py:65-66 | `list.remove(x)` fails exactly when `x` is absent; otherwise it removes one occurrence, so the length drops by one and the multiset loses one `x` |
| `Lists.IntList.Remove` | vcs_gutter.py:65-66 | the list object's `remove`: reports failure exactly when the value is absent and leaves the list unchanged then; otherwise the new contents are `RemoveFirst` of the old |
| `Lists.RemoveFirstDistinct` | vcs_gutter.py:64-66 | in a list without repeats, `remove(x)` of a present value yields the list with `x` filtered out, order kept |
| `Classifier.BottomCandidates` | vcs_gutter.py:59 | at most one candidate per input line; `x` is a candidate exactly when `x + 1` is an input line and `x >= 1` (so line 1 gives none) |
| `Classifier.CandidatesAppend` | vcs_gutter.py:59 | candidates keep input order: the candidates of `a + b` are those of `a` followed by those of `b` |
| `Classifier.CandidatesOfOne` | vcs_gutter.py:59 | a single line `n` contributes `[n - 1]` when `n > 1` and nothing otherwise |
| `Classifier.DualLines` | vcs_gutter.py:60-63 | `x` is in the dual list exactly when it is both an input line and a bottom candidate |
| `Classifier.DualLinesSnoc` | vcs_gutter.py:61-63 | the first loop appends in input order: one more entry adds itself at the end exactly when it is a candidate |
| `Classifier.DualWithinTop` | vcs_gutter.py:61-63 | the dual list takes each input occurrence at most once (multiset inclusion in the input) |
| `Classifier.DualIsAdjacent` | vcs_gutter.py:59-63 | a line is dual exactly when it and the next line are both deletion positions, and it is at least 1 |
| `Classifier.RemoveDual` | vcs_gutter.py:64-66 | the second loop: for each dual value in order, `bottom_lines.remove` and then `top_lines.remove`, stopping with the lists as they are at the first `remove` that raises; its properties are `RemoveDualCounts`, `RemoveDualOk` and `RemoveDualDistinct` |
| `Classifier.RemoveDualCounts` | vcs_gutter.py:64-66 | when no `remove` raises, each dual value takes exactly one element out of each list, so the lengths and multisets add up |
| `Classifier.RemoveDualOk` | vcs_gutter.py:64-66 | provided the dual values are drawn from the top list, no `remove` raises exactly when the dual multiset fits in the bottom list |
| `Classifier.Classify` | vcs_gutter.py:57-66 | the whole of `lines_removed` on values: the final top, bottom and dual lists and whether ValueError was raised; its properties are `DualIsAdjacent`, `ClassifyRaises`, `ClassifySizes`, `ClassifyDistinct` and the examples |
| `Classifier.ClassifyRaises` | vcs_gutter.py:57-66 | `lines_removed` raises ValueError exactly when some dual value is collected more often than it occurs among the candidates |
| `Classifier.ClassifySizes` | vcs_gutter.py:58-66 | without a ValueError, top + dual = input and bottom + dual = candidates, in length and as multisets |
| `Classifier.CandidatesDistinct` | vcs_gutter.py:59 | input lines without repeats give candidates without repeats |
| `Classifier.DualDistinct` | vcs_gutter.py:60-63 | input lines without repeats give a dual list without repeats |
| `Classifier.RemoveDualDistinct` | vcs_gutter.py:64-66 | for lists without repeats that hold every dual value, every `remove` succeeds and each list ends up with the dual values filtered out, order kept |
| `Classifier.ClassifyDistinct` | vcs_gutter.py:57-66 | for input without repeats: no ValueError; top is the input and bottom the candidates with the dual values removed, order kept; the length sums hold; the three lists are pairwise disjoint and together hold exactly the input lines and the candidates |
| `Classifier.ExampleAdjacent` | vcs_gutter.py:57-66 | `[3, 4]` gives top `[4]`, bottom `[2]`, dual `[3]` |
| `Classifier.ExampleFirstLine` | vcs_gutter.py:57-66 | `[1, 3, 4]` gives top `[1, 4]`, bottom `[2]`, dual `[3]` |
| `Classifier.ExampleApart` | vcs_gutter.py:57-66 | `[5, 10]` gives top `[5, 10]`, bottom `[4, 9]`, no dual |
| `Classifier.ExampleEdges` | vcs_gutter.py:57-66 | `[1]` gives top `[1]` only; `[]` gives three empty lists |
| `Classifier.ExampleDuplicateRaises` | vcs_gutter.py:64-66 | `[3, 3, 4]` raises at the second `bottom_lines.remove(3)`, after the caller's list has already lost one 3 |
| `Classifier.ExampleRepeatCompletes` | vcs_gutter.py:57-66 | `[3, 4, 4]` completes without ValueError and gives top `[4, 4]`, bottom `[2, 3]`, dual `[3]`. Bottom and dual share 3 here, so the partition needs input without repeats |
| `Editor.View.EraseRegions` | vcs_gutter.py:47 | `erase_regions` drops one key of the view's table and keeps every other entry |
| `Editor.View.AddRegions` | vcs_gutter.py:92 | `add_regions` overwrites one key of the table, with no merging, and keeps every other entry |
| `VcsGutter.Settings.ST3` | vcs_gutter.py:8 | the host counts as ST3 exactly when its version is at least 3000 |
| `VcsGutter.StartsWith` | vcs_gutter.py:84 | Python's `str.startswith`: the prefix is no longer than the string and equals its leading characters |
| `VcsGutter.RegionNames` | vcs_gutter.py:30-31 | `region_names`: the five categories `deleted_top`, `deleted_bottom`, `deleted_dual`, `inserted` and `changed`, in that order |
| `VcsGutter.RegionKeys` | vcs_gutter.py:45-47 | the set of keys `clear_all` erases, one `RegionKey` per entry of `RegionNames`; `RegionKeysListed` spells the five keys out and `ClearAll` is proved to erase exactly them |
| `VcsGutter.RegionKey` | vcs_gutter.py:47 | the key is `vcs_gutter_` followed by the category, and the category can be read back from it |
| `VcsGutter.RegionKeysListed` | vcs_gutter.py:30-31 | the five category keys are `vcs_gutter_deleted_top`, `_deleted_bottom`, `_deleted_dual`, `_inserted` and `_changed` |
| `VcsGutter.Scope` | vcs_gutter.py:83-86 | `markup.<scope>.vcs_gutter`, where the scope is `deleted` for every category starting with `deleted` and the category itself otherwise; `ScopeShared` states when two categories share one |
| `VcsGutter.ScopeShared` | vcs_gutter.py:83-86 | two categories share a scope exactly when they are equal or both start with `deleted` |
| `VcsGutter.IconPath` | vcs_gutter.py:72-79 | the path starts `../` exactly when the host version is below 3014 |
| `VcsGutter.IconPathInjective` | vcs_gutter.py:72-79 | for a fixed version, the icon path determines the icon name |
| `VcsGutter.Flags` | vcs_gutter.py:88-91 | the markers are hidden from the minimap unless the host is ST3 and `show_in_minimap` is set, and then they are drawn with neither fill nor outline |
| `VcsGutter.LineRegion` | vcs_gutter.py:52-53 | the region of a 1-based line is one character wide and starts at `text_point(line - 1, 0)` |
| `VcsGutter.RegionsFor` | vcs_gutter.py:49-55 | one region per line, same order, none dropped; region `i` is the one character at `text_point(line - 1, 0)` |
| `VcsGutter.VcsGutterCommand.LinesToRegions` | vcs_gutter.py:49-55 | the appending loop returns exactly `RegionsFor` of its lines |
| `VcsGutter.CollectDual` | vcs_gutter.py:60-63 | the first loop of `lines_removed` returns exactly the dual list |
| `VcsGutter.RemoveEach` | vcs_gutter.py:64-66 | the second loop leaves both list objects as the removal sequence leaves them, stopping at the first `remove` that raises |
| `VcsGutter.MarkerFor` | vcs_gutter.py:81-91 | what `bind_icons(event, lines)` registers: the lines' regions, the category's scope, its icon path and the flag word |
| `VcsGutter.Bound` | vcs_gutter.py:92 | the table after `bind_icons(event, lines)`: its key set to `MarkerFor`, all other keys as before; `BindIcons` is proved to produce it |
| `VcsGutter.DeletionTable` | vcs_gutter.py:68-70 | the table after the three `bind_icons` calls ending `lines_removed`: top, then bottom, then dual; `LinesRemoved` is proved to produce it |
| `VcsGutter.TableAfterRun` | vcs_gutter.py:39-43 | the table after a `run` that reaches its end: the deletion categories, then inserted, then changed; `TableAfterRunContents` states its contents and `Run` is proved to produce it |
| `VcsGutter.VcsGutterCommand.ClearAll` | vcs_gutter.py:45-47 | the five category keys are erased and every other key keeps its markers |
| `VcsGutter.VcsGutterCommand.BindIcons` | vcs_gutter.py:81-92 | the category's key now holds its regions, scope, icon and flags; the rest of the table is unchanged |
| `VcsGutter.VcsGutterCommand.LinesRemoved` | vcs_gutter.py:57-70 | the caller's list becomes the final top list; on ValueError nothing is bound; otherwise the three deletion categories are bound to top, bottom and dual |
| `VcsGutter.TableAfterRunContents` | vcs_gutter.py:39-47 | after a run that reaches its end, each of the five keys holds exactly the markers bound in that run, and every other key is as it was |
| `VcsGutter.VcsGutterCommand.Run` | vcs_gutter.py:33-43 | with no active view: retry requested, nothing changed; otherwise: the five keys are cleared, the deleted list is shrunk, and either ValueError ends the run with the categories cleared or all five are bound |

## Left out

- `plugin_loaded` (vcs_gutter.py:12-27): it creates a theme directory on disk and reads the
  settings file. The model takes the `show_in_minimap` setting, with the host version, as an
  input `Settings` value.
- The retry when there is no active view: `Run` only returns `Rescheduled`. Calling
  `sublime.set_timeout(self.run, 1)` again is host scheduling and is not modelled.
- `ViewCollection.diff` (vcs_gutter.py:40): `view_collection` is not part of this model. Its
  three lists are parameters of `Run`. The deleted list is an `IntList` object, because
  `lines_removed` changes it in place. The model assumes the diff does not change the view's
  region table, so it does not separate the call from `clear_all` in time.
- The editor API is abstract: `sublime.version()` is an integer, `text_point` an
  uninterpreted function of row and column, and `DRAW_NO_FILL`, `DRAW_NO_OUTLINE` and `HIDDEN`
  are opaque tokens combined as a set. The region table is a map from key to registered
  marker, and `erase_regions` removes the key.
- The ValueError is represented by a failure flag and the `Raised` outcome. Its message and
  the host's report of the uncaught exception are not modelled.
- Rendering, the icon files on disk and theme colours are not modelled.
