/** `scripts/release.ts`: the next version number, following items 6 to 8 of Semantic
    Versioning 2.0.0. The version is split at its dots, each component read as a number, one
    component incremented in place and those after it reset, and the parts joined again. */
module Release {
  import opened Remote
  import opened Text

  datatype BumpKind = MajorBump | MinorBump | PatchBump

  /** The `--type` option: 'major' and 'minor' are recognised, anything else (the default is
      'patch') bumps the patch component. */
  function KindOf(option: string): (k: BumpKind)
    ensures k == MajorBump <==> option == "major"
    ensures k == MinorBump <==> option == "minor"
  {
    if option == "major" then MajorBump else if option == "minor" then MinorBump else PatchBump
  }

  /** `split(".")`: the pieces between the dots, in order; there is always at least one. */
  function SplitDots(s: string): (parts: seq<string>)
    ensures |parts| >= 1
    ensures forall i :: 0 <= i < |parts| ==> '.' !in parts[i]
  {
    if s == [] then [""]
    else if s[0] == '.' then [""] + SplitDots(s[1..])
    else
      var rest := SplitDots(s[1..]);
      [[s[0]] + rest[0]] + rest[1..]
  }

  /** `join(".")`. */
  function JoinDots(parts: seq<string>): string
  {
    if parts == [] then "" else if |parts| == 1 then parts[0] else parts[0] + "." + JoinDots(parts[1..])
  }

  lemma {:induction false} JoinDotsCons(c: char, parts: seq<string>)
    requires |parts| >= 1
    ensures JoinDots([[c] + parts[0]] + parts[1..]) == [c] + JoinDots(parts)
  {
    var q := [[c] + parts[0]] + parts[1..];
    if |parts| > 1 {
      assert q[1..] == parts[1..];
    }
  }

  /** Joining what was split gives back the original text. */
  lemma {:induction false} JoinSplit(s: string)
    ensures JoinDots(SplitDots(s)) == s
  {
    if s == [] {
    } else if s[0] == '.' {
      JoinSplit(s[1..]);
      var rest := SplitDots(s[1..]);
      assert ([""] + rest)[1..] == rest;
    } else {
      JoinSplit(s[1..]);
      JoinDotsCons(s[0], SplitDots(s[1..]));
      assert s == [s[0]] + s[1..];
    }
  }

  /** Splitting what was joined gives back the parts, as long as none contains a dot. */
  lemma {:induction false} SplitJoin(parts: seq<string>)
    requires |parts| >= 1
    requires forall i :: 0 <= i < |parts| ==> '.' !in parts[i]
    ensures SplitDots(JoinDots(parts)) == parts
  {
    if |parts| == 1 {
      SplitNoDot(parts[0]);
    } else {
      SplitJoin(parts[1..]);
      SplitPrefix(parts[0], JoinDots(parts[1..]));
      assert parts == [parts[0]] + parts[1..];
    }
  }

  /** A text without dots splits into itself. */
  lemma {:induction false} SplitNoDot(s: string)
    requires '.' !in s
    ensures SplitDots(s) == [s]
  {
    if s != [] {
      SplitNoDot(s[1..]);
      assert s == [s[0]] + s[1..];
    }
  }

  /** A dot-free piece in front of a dot becomes the first part. */
  lemma {:induction false} SplitPrefix(p: string, t: string)
    requires '.' !in p
    ensures SplitDots(p + "." + t) == [p] + SplitDots(t)
  {
    if p == [] {
      assert p + "." + t == ['.'] + t;
      assert (['.'] + t)[1..] == t;
    } else {
      var u := p + "." + t;
      assert u[0] == p[0];
      assert u[1..] == p[1..] + "." + t;
      SplitPrefix(p[1..], t);
      assert [p[0]] + p[1..] == p;
    }
  }

  /** `Number(part)` for the versions the script is meant for: a string of decimal digits
      (the empty string reads as 0, as in JavaScript). Anything else is outside the model. */
  function Component(part: string): (n: Option<nat>)
    ensures n.Some? <==> AllDigits(part)
  {
    if AllDigits(part) then Some(DigitsValue(part)) else None
  }

  /** `split(".").map(Number)`, when every component is a digit string. */
  function ParseVersion(version: string): (parts: Option<seq<nat>>)
  {
    Components(SplitDots(version))
  }

  function Components(pieces: seq<string>): (parts: Option<seq<nat>>)
    ensures parts.Some? ==> |parts.value| == |pieces|
    ensures parts.Some? <==> forall i :: 0 <= i < |pieces| ==> AllDigits(pieces[i])
  {
    if pieces == [] then Some([])
    else
      var head, tail := Component(pieces[0]), Components(pieces[1..]);
      assert forall i :: 1 <= i < |pieces| ==> pieces[i] == pieces[1..][i - 1];
      if head.Some? && tail.Some? then Some([head.value] + tail.value) else None
  }

  /** The numerals of the components. */
  function Numerals(parts: seq<nat>): (pieces: seq<string>)
    ensures |pieces| == |parts|
    ensures forall i :: 0 <= i < |parts| ==> pieces[i] == NatToString(parts[i])
  {
    if parts == [] then [] else [NatToString(parts[0])] + Numerals(parts[1..])
  }

  /** `parts.join(".")` of numbers. */
  function RenderVersion(parts: seq<nat>): string
  {
    JoinDots(Numerals(parts))
  }

  lemma {:induction false} ComponentsOfNumerals(parts: seq<nat>)
    ensures Components(Numerals(parts)) == Some(parts)
  {
    if parts != [] {
      ComponentsOfNumerals(parts[1..]);
      var pieces := Numerals(parts);
      assert pieces[1..] == Numerals(parts[1..]);
      assert Component(pieces[0]) == Some(parts[0]);
      assert parts == [parts[0]] + parts[1..];
    }
  }

  /** Reading a rendered version gives back its components. */
  lemma ParseRender(parts: seq<nat>)
    requires |parts| >= 1
    ensures ParseVersion(RenderVersion(parts)) == Some(parts)
  {
    var pieces := Numerals(parts);
    forall i | 0 <= i < |pieces| ensures '.' !in pieces[i] {
      DigitsExclude(pieces[i], '.');
    }
    SplitJoin(pieces);
    ComponentsOfNumerals(parts);
  }

  /** The components after the bump: major resets minor and patch, minor resets patch, and
      any components after the third are kept. */
  function Bumped(parts: seq<nat>, kind: BumpKind): (r: seq<nat>)
    requires |parts| >= 3
    ensures |r| == |parts|
    ensures r[3..] == parts[3..]
  {
    match kind
    case MajorBump => [parts[0] + 1, 0, 0] + parts[3..]
    case MinorBump => [parts[0], parts[1] + 1, 0] + parts[3..]
    case PatchBump => [parts[0], parts[1], parts[2] + 1] + parts[3..]
  }

  /** Component-wise lexicographic order on versions of the same length. */
  predicate LexLess(a: seq<nat>, b: seq<nat>)
    requires |a| == |b|
  {
    exists k :: 0 <= k < |a| && a[..k] == b[..k] && a[k] < b[k]
  }

  /** Each kind of bump produces a strictly greater version. */
  lemma BumpIncreases(parts: seq<nat>, kind: BumpKind)
    requires |parts| >= 3
    ensures LexLess(parts, Bumped(parts, kind))
  {
    var r := Bumped(parts, kind);
    match kind
    case MajorBump =>
      assert parts[..0] == r[..0] && parts[0] < r[0];
    case MinorBump =>
      assert parts[..1] == r[..1] && parts[1] < r[1];
    case PatchBump =>
      assert parts[..2] == r[..2] && parts[2] < r[2];
  }

  /** The bump on the array of components, in place as the script does
      (`parts[0]++; parts[1] = 0; ...`). */
  method BumpInPlace(parts: array<nat>, kind: BumpKind)
    requires parts.Length >= 3
    modifies parts
    ensures parts[..] == Bumped(old(parts[..]), kind)
  {
    if kind == MajorBump {
      parts[0] := parts[0] + 1;
      parts[1] := 0;
      parts[2] := 0;
    } else if kind == MinorBump {
      parts[1] := parts[1] + 1;
      parts[2] := 0;
    } else {
      parts[2] := parts[2] + 1;
    }
  }

  /** The reference definition of the new version, on values: the current version read,
      bumped and rendered again. `None` when the current version is not three or more
      digit-string components, which the model does not cover. `NextVersion` is the script's
      own procedure, with its array updated in place, and is proved to agree with it. */
  function NewVersion(current: string, kind: BumpKind): Option<string>
  {
    match ParseVersion(current)
    case Some(parts) => if |parts| >= 3 then Some(RenderVersion(Bumped(parts, kind))) else None
    case None => None
  }

  /** Step 2 of the script: parse, bump in place, join. */
  method NextVersion(current: string, option: string) returns (next: Option<string>)
    ensures next == NewVersion(current, KindOf(option))
    ensures next.Some? ==>
              && ParseVersion(next.value).Some?
              && |ParseVersion(next.value).value| == |ParseVersion(current).value|
              && LexLess(ParseVersion(current).value, ParseVersion(next.value).value)
  {
    var parsed := ParseVersion(current);
    if parsed.None? || |parsed.value| < 3 {
      return None;
    }
    var parts := new nat[|parsed.value|](i requires 0 <= i < |parsed.value| => parsed.value[i]);
    assert parts[..] == parsed.value;
    BumpInPlace(parts, KindOf(option));
    next := Some(RenderVersion(parts[..]));
    ParseRender(parts[..]);
    BumpIncreases(parsed.value, KindOf(option));
  }
}
