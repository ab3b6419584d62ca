/** The editor surface the command draws on: a view with an abstract line-to-offset
    mapping and a table of named marker sets. */
module Editor {

  /** A span of character offsets `[a, b)` in the buffer. */
  datatype Region = Region(a: int, b: int)

  /** The drawing flags the command uses, as opaque tokens; a flag word is a set of them. */
  datatype Flag = DrawNoFill | DrawNoOutline | Hidden

  /** What `add_regions` registers under one key. */
  datatype Marker = Marker(regions: seq<Region>, scope: string, icon: string, flags: set<Flag>)

  class View {
    /** `text_point(row, col)`: the offset of a 0-based row and column, left uninterpreted. */
    const textPoint: (int, int) -> int
    /** The view's registered markers, by key. */
    var markers: map<string, Marker>

    constructor (textPoint: (int, int) -> int, markers: map<string, Marker>)
      ensures this.textPoint == textPoint && this.markers == markers
    {
      this.textPoint := textPoint;
      this.markers := markers;
    }

    /** `erase_regions(key)`: drops the markers under `key` and no others. */
    method EraseRegions(key: string)
      modifies this
      ensures markers == old(markers) - {key}
    {
      markers := markers - {key};
    }

    /** `add_regions(key, ...)`: replaces whatever was under `key`; the other keys keep theirs. */
    method AddRegions(key: string, regions: seq<Region>, scope: string, icon: string, flags: set<Flag>)
      modifies this
      ensures markers == old(markers)[key := Marker(regions, scope, icon, flags)]
    {
      markers := markers[key := Marker(regions, scope, icon, flags)];
    }
  }
}
