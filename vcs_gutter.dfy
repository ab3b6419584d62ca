/** The `vcs_gutter` window command: clear the five marker categories, classify the
    deletion positions, and register one marker set per category. */
module VcsGutter {
  import opened Lists
  import opened Classifier
  import opened Editor

  /** `region_names`: the five marker categories, in the order `clear_all` erases them. */
  const RegionNames: seq<string> := ["deleted_top", "deleted_bottom", "deleted_dual", "inserted", "changed"]

  const KeyPrefix: string := "vcs_gutter_"

  /** Python's `s.startswith(prefix)`. */
  predicate StartsWith(s: string, prefix: string)
  {
    |prefix| <= |s| && s[..|prefix|] == prefix
  }

  /** The key a category's markers are registered under. The category can be read back
      from the key, so distinct categories never share a key. */
  function RegionKey(event: string): (k: string)
    ensures StartsWith(k, KeyPrefix) && k[|KeyPrefix|..] == event
  {
    KeyPrefix + event
  }

  /** The keys of the five categories. */
  function RegionKeys(): (keys: set<string>)
  {
    set e | e in RegionNames :: RegionKey(e)
  }

  /** The theme scope of a category: every `deleted...` category uses the deleted scope. */
  function Scope(event: string): (scope: string)
  {
    var eventScope := if StartsWith(event, "deleted") then "deleted" else event;
    "markup." + eventScope + ".vcs_gutter"
  }

  /** What the command reads from the host once: its version number and the
      `show_in_minimap` setting. */
  datatype Settings = Settings(version: int, showInMinimap: bool)
  {
    /** `ST3`: the host is version 3000 or later. */
    predicate ST3()
    {
      version >= 3000
    }
  }

  /** `icon_path`: a path relative to the theme directory before version 3014, a package
      resource with a `.png` extension from 3014 on. */
  function IconPath(version: int, iconName: string): (p: string)
    ensures StartsWith(p, "../") <==> version < 3014
  {
    var path := if version < 3014 then ".." else "Packages";
    var extn := if version < 3014 then "" else ".png";
    var p := path + "/VCS Gutter/icons/" + iconName + extn;
    assert p[..3] == (if version < 3014 then "../" else "Pac");
    p
  }

  /** The flag word: drawn without fill or outline, so that the markers also show in the
      minimap, only on ST3 with `show_in_minimap` set; hidden otherwise. */
  function Flags(s: Settings): (f: set<Flag>)
    ensures Hidden in f <==> !(s.ST3() && s.showInMinimap)
    ensures f == {Hidden} || f == {DrawNoFill, DrawNoOutline}
  {
    if s.ST3() && s.showInMinimap then {DrawNoFill, DrawNoOutline} else {Hidden}
  }

  /** The one-character region at the start of a 1-based line. */
  function LineRegion(textPoint: (int, int) -> int, line: int): (g: Region)
    ensures g.b == g.a + 1
  {
    var position := textPoint(line - 1, 0);
    Region(position, position + 1)
  }

  /** One region per line, in the same order, none dropped. */
  function RegionsFor(textPoint: (int, int) -> int, lines: seq<int>): (r: seq<Region>)
    ensures |r| == |lines|
    ensures forall i :: 0 <= i < |lines| ==> r[i] == LineRegion(textPoint, lines[i])
  {
    if lines == [] then [] else [LineRegion(textPoint, lines[0])] + RegionsFor(textPoint, lines[1..])
  }

  /** The marker set `bind_icons(event, lines)` registers. */
  function MarkerFor(textPoint: (int, int) -> int, s: Settings, event: string, lines: seq<int>): (marker: Marker)
  {
    Marker(RegionsFor(textPoint, lines), Scope(event), IconPath(s.version, event), Flags(s))
  }

  /** The table after `bind_icons(event, lines)`. */
  function Bound(m: map<string, Marker>, textPoint: (int, int) -> int, s: Settings, event: string, lines: seq<int>): (t: map<string, Marker>)
  {
    m[RegionKey(event) := MarkerFor(textPoint, s, event, lines)]
  }

  /** The table after the three `bind_icons` calls that end `lines_removed`. */
  function DeletionTable(m: map<string, Marker>, textPoint: (int, int) -> int, s: Settings, c: Classification): (t: map<string, Marker>)
  {
    var m1 := Bound(m, textPoint, s, "deleted_top", c.top);
    var m2 := Bound(m1, textPoint, s, "deleted_bottom", c.bottom);
    Bound(m2, textPoint, s, "deleted_dual", c.dual)
  }

  /** The table after a `run` that reaches its end. */
  function TableAfterRun(m: map<string, Marker>, textPoint: (int, int) -> int, s: Settings,
                         inserted: seq<int>, modified: seq<int>, c: Classification): (t: map<string, Marker>)
  {
    var m3 := DeletionTable(m, textPoint, s, c);
    Bound(Bound(m3, textPoint, s, "inserted", inserted), textPoint, s, "changed", modified)
  }

  /** Two categories share a scope exactly when they are the same category or both are
      deletion categories. */
  lemma ScopeShared(a: string, b: string)
    ensures Scope(a) == Scope(b) <==> a == b || (StartsWith(a, "deleted") && StartsWith(b, "deleted"))
  {
    var da, db := StartsWith(a, "deleted"), StartsWith(b, "deleted");
    if Scope(a) == Scope(b) && !(da && db) {
      var ea := if da then "deleted" else a;
      var eb := if db then "deleted" else b;
      Unwrap("markup.", ea, eb, ".vcs_gutter");
    }
  }

  /** The icon path names the icon: different icons never share a path. */
  lemma IconPathInjective(version: int, a: string, b: string)
    ensures IconPath(version, a) == IconPath(version, b) <==> a == b
  {
    if IconPath(version, a) == IconPath(version, b) {
      var path := if version < 3014 then ".." else "Packages";
      var extn := if version < 3014 then "" else ".png";
      Unwrap(path + "/VCS Gutter/icons/", a, b, extn);
    }
  }

  /** Equal strings with the same prefix and suffix have the same middle. */
  lemma Unwrap(prefix: string, a: string, b: string, suffix: string)
    requires prefix + a + suffix == prefix + b + suffix
    ensures a == b
  {
    var s := prefix + a + suffix;
    assert |a| == |b|;
    assert a == s[|prefix|..|prefix| + |a|];
    assert b == (prefix + b + suffix)[|prefix|..|prefix| + |b|];
  }

  /** After a `run` that reaches its end, each of the five keys holds exactly the marker set
      bound in that run, and every other key is as it was. */
  lemma TableAfterRunContents(m: map<string, Marker>, textPoint: (int, int) -> int, s: Settings,
                              inserted: seq<int>, modified: seq<int>, c: Classification)
    ensures var t := TableAfterRun(m, textPoint, s, inserted, modified, c);
      t.Keys == m.Keys + RegionKeys() &&
      t[RegionKey("deleted_top")] == MarkerFor(textPoint, s, "deleted_top", c.top) &&
      t[RegionKey("deleted_bottom")] == MarkerFor(textPoint, s, "deleted_bottom", c.bottom) &&
      t[RegionKey("deleted_dual")] == MarkerFor(textPoint, s, "deleted_dual", c.dual) &&
      t[RegionKey("inserted")] == MarkerFor(textPoint, s, "inserted", inserted) &&
      t[RegionKey("changed")] == MarkerFor(textPoint, s, "changed", modified) &&
      forall k :: k in m && k !in RegionKeys() ==> t[k] == m[k]
  {
    RegionKeysListed();
    var kt, kb, kd := RegionKey("deleted_top"), RegionKey("deleted_bottom"), RegionKey("deleted_dual");
    var ki, kc := RegionKey("inserted"), RegionKey("changed");
    assert |kt| == 22 && |kb| == 25 && |kd| == 23 && |ki| == 19 && |kc| == 18;
  }

  lemma RegionKeysListed()
    ensures RegionKeys() == {RegionKey("deleted_top"), RegionKey("deleted_bottom"), RegionKey("deleted_dual"),
                             RegionKey("inserted"), RegionKey("changed")}
  {
  }

  /** The first loop of `lines_removed`: every entry of `topLines` that is also in
      `bottomLines`, in order. */
  method CollectDual(topLines: seq<int>, bottomLines: seq<int>) returns (dualLines: seq<int>)
    ensures dualLines == DualLines(topLines, bottomLines)
  {
    dualLines := [];
    for i := 0 to |topLines|
      invariant dualLines == DualLines(topLines[..i], bottomLines)
    {
      var line := topLines[i];
      DualLinesSnoc(topLines[..i], line, bottomLines);
      assert topLines[..i + 1] == topLines[..i] + [line];
      if line in bottomLines {
        dualLines := dualLines + [line];
      }
    }
    assert topLines[..|topLines|] == topLines;
  }

  /** The second loop of `lines_removed`: `bottom_lines.remove(line)` then
      `top_lines.remove(line)` for each dual line; `ok` is false where a `remove` raises
      ValueError, and the lists are then as that `remove` left them. */
  method RemoveEach(dualLines: seq<int>, topLines: IntList, bottomLines: IntList) returns (ok: bool)
    requires topLines != bottomLines
    modifies topLines, bottomLines
    ensures var r := RemoveDual(dualLines, old(topLines.items), old(bottomLines.items));
      topLines.items == r.top && bottomLines.items == r.bottom && ok == r.ok
  {
    ghost var removal := RemoveDual(dualLines, topLines.items, bottomLines.items);
    for j := 0 to |dualLines|
      invariant RemoveDual(dualLines[j..], topLines.items, bottomLines.items) == removal
    {
      var line := dualLines[j];
      assert dualLines[j..][0] == line && dualLines[j..][1..] == dualLines[j + 1..];
      var found := bottomLines.Remove(line);
      if !found {
        return false;
      }
      found := topLines.Remove(line);
      if !found {
        return false;
      }
    }
    assert dualLines[|dualLines|..] == [];
    ok := true;
  }

  /** How a `run` ends: no active view yet (retried later), ValueError from `lines_removed`,
      or all markers bound. */
  datatype Outcome = Rescheduled | Raised | Completed

  class VcsGutterCommand {
    const settings: Settings
    var view: View?

    constructor (settings: Settings)
      ensures this.settings == settings && view == null
    {
      this.settings := settings;
      view := null;
    }

    /** `clear_all`: erases the five category keys and nothing else. */
    method ClearAll()
      requires view != null
      modifies view
      ensures view.markers == old(view.markers) - RegionKeys()
    {
      for i := 0 to |RegionNames|
        invariant view.markers == old(view.markers) - (set e | e in RegionNames[..i] :: RegionKey(e))
      {
        assert RegionNames[..i + 1] == RegionNames[..i] + [RegionNames[i]];
        assert (set e | e in RegionNames[..i + 1] :: RegionKey(e))
            == (set e | e in RegionNames[..i] :: RegionKey(e)) + {RegionKey(RegionNames[i])};
        view.EraseRegions(RegionKey(RegionNames[i]));
      }
      assert RegionNames[..|RegionNames|] == RegionNames;
    }

    /** `lines_to_regions`: one region per line, in order, each at the start of its line. */
    method LinesToRegions(lines: seq<int>) returns (regions: seq<Region>)
      requires view != null
      ensures regions == RegionsFor(view.textPoint, lines)
    {
      regions := [];
      for i := 0 to |lines|
        invariant |regions| == i
        invariant forall k :: 0 <= k < i ==> regions[k] == LineRegion(view.textPoint, lines[k])
      {
        var position := view.textPoint(lines[i] - 1, 0);
        var region := Region(position, position + 1);
        regions := regions + [region];
      }
    }

    /** `bind_icons`: replaces the markers under the category's key and leaves the other keys alone. */
    method BindIcons(event: string, lines: seq<int>)
      requires view != null
      modifies view
      ensures view.markers == Bound(old(view.markers), view.textPoint, settings, event, lines)
    {
      var regions := LinesToRegions(lines);
      var scope := Scope(event);
      var icon := IconPath(settings.version, event);
      var flags := Flags(settings);
      view.AddRegions(RegionKey(event), regions, scope, icon, flags);
    }

    /** `lines_removed`: classifies the deletion positions and binds the three deletion
        categories. The top list is the caller's list itself, so the caller sees it shrink.
        When a `remove` raises ValueError, nothing is bound and both lists stay as they were
        at that moment. */
    method LinesRemoved(lines: IntList) returns (completed: bool)
      requires view != null
      modifies lines, view
      ensures var c := Classify(old(lines.items));
        lines.items == c.top && completed == !c.raised &&
        view.markers == if c.raised then old(view.markers) else DeletionTable(old(view.markers), view.textPoint, settings, c)
    {
      var topLines := lines;
      var bottomLines := new IntList(BottomCandidates(topLines.items));
      var dualLines := CollectDual(topLines.items, bottomLines.items);
      ClassifyUnfold(topLines.items);
      completed := RemoveEach(dualLines, topLines, bottomLines);
      if !completed {
        return;
      }
      BindIcons("deleted_top", topLines.items);
      BindIcons("deleted_bottom", bottomLines.items);
      BindIcons("deleted_dual", dualLines);
    }

    /** `run`, with the diff's three lists passed in and the active view as a parameter.
        Without an active view it only records that and asks to be retried. Otherwise it clears
        the five categories, classifies `deleted` (shrinking the caller's list) and binds the
        categories; a ValueError leaves the five categories cleared and ends the run. */
    method Run(active: View?, inserted: seq<int>, modified: seq<int>, deleted: IntList) returns (outcome: Outcome)
      modifies this, active, deleted
      ensures view == active
      ensures active == null ==> outcome == Rescheduled && deleted.items == old(deleted.items)
      ensures active != null ==>
        var c := Classify(old(deleted.items));
        var cleared := old(active.markers) - RegionKeys();
        deleted.items == c.top &&
        outcome == (if c.raised then Raised else Completed) &&
        active.markers == if c.raised then cleared else TableAfterRun(cleared, active.textPoint, settings, inserted, modified, c)
    {
      view := active;
      if view == null {
        return Rescheduled;
      }
      ClearAll();
      var completed := LinesRemoved(deleted);
      if !completed {
        return Raised;
      }
      BindIcons("inserted", inserted);
      BindIcons("changed", modified);
      outcome := Completed;
    }
  }
}
