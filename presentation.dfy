/** How each unit's output lines are labelled: the unit's name padded with spaces to
    one more than the longest name, so that every line's text starts in the same
    column, and a colour picked by hashing the name (determineColor, written out the
    same way in pkg/engine/engine.go, pkg/engine/wrapper.go and cmd/takt/cmd.go). */
module Presentation {

  /** Go's uint32. */
  newtype uint32 = x: int | 0 <= x < 0x1_0000_0000

  /** The entries of colorList, in order. */
  datatype Color = HiCyan | HiGreen | HiMagenta | HiYellow | HiBlue | HiRed

  const Palette: seq<Color> := [HiCyan, HiGreen, HiMagenta, HiYellow, HiBlue, HiRed]

  /** hash.Sum32() % uint32(len(colorList)): the residue of the hash modulo the
      number of colours, so always a valid index into the list. */
  function ColorIndex(h: uint32): (idx: nat)
    ensures idx < |Palette|
    ensures (h as int - idx) % |Palette| == 0
  {
    (h % (|Palette| as uint32)) as nat
  }

  /** determineColor(key): the colour at the index given by the FNV-32 hash of the
      key; the hash is the parameter `hash`, so equal keys get equal colours. */
  function DetermineColor(hash: string -> uint32, key: string): Color {
    Palette[ColorIndex(hash(key))]
  }

  /** The length of the longest name; 0 when there is none. */
  function MaxLen(names: seq<string>): (m: nat)
    ensures forall i :: 0 <= i < |names| ==> |names[i]| <= m
    ensures names == [] ==> m == 0
    ensures names != [] ==> exists i :: 0 <= i < |names| && |names[i]| == m
    decreases |names|
  {
    if names == [] then 0
    else
      var m := MaxLen(names[..|names| - 1]);
      if |names[|names| - 1]| > m then |names[|names| - 1]| else m
  }

  /** The loop `max := 0; for each task { if len(name) > max { max = len(name) } }`. */
  method LongestName(names: seq<string>) returns (max: nat)
    ensures max == MaxLen(names)
  {
    max := 0;
    for k := 0 to |names|
      invariant max == MaxLen(names[..k])
    {
      assert names[..k + 1][..k] == names[..k];
      if |names[k]| > max {
        max := |names[k]|;
      }
    }
    assert names[..|names|] == names;
  }

  /** n spaces: strings.Repeat(" ", n). */
  function Spaces(n: nat): (s: string)
    ensures |s| == n && forall k :: 0 <= k < n ==> s[k] == ' '
  {
    seq(n, _ => ' ')
  }

  /** t.Name + strings.Repeat(" ", max-len(t.Name)+1). The count passed to Repeat is
      positive because max is at least the name's length (Repeat panics on a negative
      count), so the name is followed by at least one space and the label is max+1 wide. */
  function Prefix(name: string, max: nat): (p: string)
    requires |name| <= max
    ensures |p| == max + 1
    ensures p[..|name|] == name
    ensures forall k :: |name| <= k < |p| ==> p[k] == ' '
    ensures p[|name|] == ' '
  {
    name + Spaces(max - |name| + 1)
  }

  /** The labels the runner hands to each unit's logger: the longest name's length is
      computed once, then every unit gets its padded name and its colour. All labels
      have the same width, one more than the longest name. */
  method Labels(names: seq<string>, hash: string -> uint32) returns (prefixes: seq<string>, colors: seq<Color>)
    ensures |prefixes| == |names| && |colors| == |names|
    ensures forall i :: 0 <= i < |names| ==>
      && |prefixes[i]| == MaxLen(names) + 1
      && prefixes[i][..|names[i]|] == names[i]
      && prefixes[i][|names[i]|] == ' '
      && prefixes[i] == Prefix(names[i], MaxLen(names))
      && colors[i] == DetermineColor(hash, names[i])
  {
    var max := LongestName(names);
    prefixes := [];
    colors := [];
    for i := 0 to |names|
      invariant |prefixes| == i && |colors| == i
      invariant forall j :: 0 <= j < i ==>
        prefixes[j] == Prefix(names[j], max) && colors[j] == DetermineColor(hash, names[j])
    {
      prefixes := prefixes + [Prefix(names[i], max)];
      colors := colors + [DetermineColor(hash, names[i])];
    }
  }
}
