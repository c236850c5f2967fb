/** The option logic of the command-line driver that decides what the remap
    is given: the save-format table and its case-insensitive lookup, the
    rotation-order parser, the composition of the rotation matrix and the
    zero padding of missing angles. */
module CommandLine {
  import opened LinAlg
  import Colour
  import Raster

  datatype Option<T> = None | Some(value: T)

  /** tolower in the C locale: only 'A'..'Z' change, to 'a'..'z'. */
  function ToLower(c: char): char
  {
    if 'A' <= c <= 'Z' then (c as int + 32) as char else c
  }

  /** tolower leaves no upper-case letter, is idempotent, and changes nothing
      but the upper-case letters. */
  lemma ToLowerLowers(c: char)
    ensures !('A' <= ToLower(c) <= 'Z')
    ensures ToLower(ToLower(c)) == ToLower(c)
    ensures ToLower(c) != c <==> 'A' <= c <= 'Z'
  {
  }

  /** The string with tolower applied to every character. */
  function LowerString(s: string): (l: string)
    ensures |l| == |s|
  {
    seq(|s|, i requires 0 <= i < |s| => ToLower(s[i]))
  }

  /** The comparison SaveFormat::match makes: equal lengths, and equal
      characters once both are lowered. */
  predicate SameIgnoringCase(a: string, b: string)
  {
    |a| == |b| && forall i :: 0 <= i < |a| ==> ToLower(a[i]) == ToLower(b[i])
  }

  /** Two strings match ignoring case exactly when their lowered forms are
      equal; so the relation is an equivalence. */
  lemma SameIgnoringCaseIsLoweredEquality(a: string, b: string)
    ensures SameIgnoringCase(a, b) <==> LowerString(a) == LowerString(b)
  {
    if LowerString(a) == LowerString(b) {
      forall i | 0 <= i < |a|
        ensures ToLower(a[i]) == ToLower(b[i])
      {
        assert LowerString(a)[i] == LowerString(b)[i];
      }
    }
  }

  /** A string matches its own lowered form. */
  lemma SameAsLowered(s: string)
    ensures SameIgnoringCase(s, LowerString(s))
  {
    forall i | 0 <= i < |s|
      ensures ToLower(s[i]) == ToLower(LowerString(s)[i])
    {
      ToLowerLowers(s[i]);
    }
  }

  /** What each table entry's save function pointer is: the plain savers and
      the four TIFF wrappers that fix samples per pixel and bits per sample. */
  datatype Saver = SaveTiff | SaveJpeg | SaveTiffRgb8 | SaveTiffRgb16 | SaveTiffRgba8 | SaveTiffRgba16

  datatype SaveFormat = SaveFormat(flag: string, save: Saver, description: string)

  /** save_format_table, in its order. */
  const SaveFormats: seq<SaveFormat> := [
    SaveFormat("TIFF", SaveTiff, "(default) -- matches bps/spp from input"),
    SaveFormat("JPG", SaveJpeg, "8-bit RGB JPEG (default q=90)"),
    SaveFormat("JPEG", SaveJpeg, "(synonym; same as above)"),
    SaveFormat("TIFF_RGB8", SaveTiffRgb8, "8-bit  RGB  TIFF"),
    SaveFormat("TIFF_RGB16", SaveTiffRgb16, "16-bit RGB  TIFF"),
    SaveFormat("TIFF_RGBA8", SaveTiffRgba8, "8-bit  RGBA TIFF"),
    SaveFormat("TIFF_RGBA16", SaveTiffRgba16, "16-bit RGBA TIFF")
  ]

  /** main starts from &save_format_table[0]. */
  const DefaultSaveFormat: nat := 0

  /** SaveFormat::match: a length test, then a loop that returns false at the
      first character whose lowered forms differ. */
  method Match(format: SaveFormat, input: string) returns (matched: bool)
    ensures matched <==> SameIgnoringCase(format.flag, input)
  {
    if |input| != |format.flag| {
      return false;
    }
    for i := 0 to |format.flag|
      invariant forall j :: 0 <= j < i ==> ToLower(format.flag[j]) == ToLower(input[j])
    {
      var a := ToLower(format.flag[i]);
      var b := ToLower(input[i]);
      if a != b {
        return false;
      }
    }
    return true;
  }

  /** The index of the first entry at or after `start` whose flag matches `name`. */
  function FirstMatch(table: seq<SaveFormat>, name: string, start: nat): (found: Option<nat>)
    requires start <= |table|
    ensures found.Some? ==> start <= found.value < |table| && SameIgnoringCase(table[found.value].flag, name)
    ensures found.Some? ==> forall j :: start <= j < found.value ==> !SameIgnoringCase(table[j].flag, name)
    ensures found.None? <==> forall j :: start <= j < |table| ==> !SameIgnoringCase(table[j].flag, name)
    decreases |table| - start
  {
    if start == |table| then None
    else if SameIgnoringCase(table[start].flag, name) then Some(start)
    else FirstMatch(table, name, start + 1)
  }

  /** find_save_format: scan the table in order and return the first entry that
      matches; None stands for the null pointer. */
  method FindSaveFormat(name: string) returns (found: Option<nat>)
    ensures found == FirstMatch(SaveFormats, name, 0)
  {
    for i := 0 to |SaveFormats|
      invariant FirstMatch(SaveFormats, name, i) == FirstMatch(SaveFormats, name, 0)
    {
      var matched := Match(SaveFormats[i], name);
      if matched {
        return Some(i);
      }
    }
    return None;
  }

  /** The lookup only sees a name through its lowered form. */
  lemma {:induction false} FirstMatchIgnoresCase(table: seq<SaveFormat>, a: string, b: string, start: nat)
    requires start <= |table|
    requires SameIgnoringCase(a, b)
    ensures FirstMatch(table, a, start) == FirstMatch(table, b, start)
    decreases |table| - start
  {
    if start < |table| {
      SameIgnoringCaseIsLoweredEquality(table[start].flag, a);
      SameIgnoringCaseIsLoweredEquality(table[start].flag, b);
      SameIgnoringCaseIsLoweredEquality(a, b);
      FirstMatchIgnoresCase(table, a, b, start + 1);
    }
  }

  lemma DifferAt(a: string, b: string, i: nat)
    requires i < |a| && i < |b| && ToLower(a[i]) != ToLower(b[i])
    ensures !SameIgnoringCase(a, b)
  {
  }

  /** No two flags of the table match each other ignoring case: all but two
      pairs differ in length, TIFF and JPEG in their first letter, TIFF_RGB16
      and TIFF_RGBA8 in their ninth. */
  lemma FlagsDistinct(i: nat, j: nat)
    requires i < |SaveFormats| && j < |SaveFormats| && i != j
    ensures !SameIgnoringCase(SaveFormats[i].flag, SaveFormats[j].flag)
  {
    var a, b := SaveFormats[i].flag, SaveFormats[j].flag;
    if (i == 0 && j == 2) || (i == 2 && j == 0) {
      DifferAt(a, b, 0);
    } else if (i == 4 && j == 5) || (i == 5 && j == 4) {
      DifferAt(a, b, 8);
    } else {
      assert |a| != |b|;
    }
  }

  /** In a table whose flags are pairwise distinct ignoring case, a name that
      matches entry i is found at i. */
  lemma FirstMatchOfDistinct(table: seq<SaveFormat>, name: string, i: nat)
    requires i < |table| && SameIgnoringCase(name, table[i].flag)
    requires forall j, k :: 0 <= j < |table| && 0 <= k < |table| && j != k ==> !SameIgnoringCase(table[j].flag, table[k].flag)
    ensures FirstMatch(table, name, 0) == Some(i)
  {
    var found := FirstMatch(table, name, 0);
    SameIgnoringCaseIsLoweredEquality(name, table[i].flag);
    assert found.Some?;
    SameIgnoringCaseIsLoweredEquality(table[found.value].flag, name);
    SameIgnoringCaseIsLoweredEquality(table[found.value].flag, table[i].flag);
  }

  /** Every flag, in any case, finds its own entry; the default entry is the
      input-matching TIFF saver, and JPG and JPEG select the same saver. */
  lemma FlagsFindThemselves(i: nat, name: string)
    requires i < |SaveFormats| && SameIgnoringCase(name, SaveFormats[i].flag)
    ensures FirstMatch(SaveFormats, name, 0) == Some(i)
    ensures SaveFormats[DefaultSaveFormat].flag == "TIFF" && SaveFormats[DefaultSaveFormat].save == SaveTiff
    ensures SaveFormats[1].save == SaveFormats[2].save
  {
    forall j, k | 0 <= j < |SaveFormats| && 0 <= k < |SaveFormats| && j != k
      ensures !SameIgnoringCase(SaveFormats[j].flag, SaveFormats[k].flag)
    {
      FlagsDistinct(j, k);
    }
    FirstMatchOfDistinct(SaveFormats, name, i);
  }

  /** RotType: rotation about the X, Y or Z axis (roll, pitch, yaw). */
  datatype RotType = AboutX | AboutY | AboutZ

  /** main's rotation sequence before any -order option: roll, pitch, yaw. */
  const DefaultSequence: seq<RotType> := [AboutX, AboutY, AboutZ]

  /** The axis one character of a rotation order names: R or r roll about X,
      P or p pitch about Y, Y or y yaw about Z; anything else none. */
  function AxisOf(c: char): Option<RotType>
  {
    if c == 'R' || c == 'r' then Some(AboutX)
    else if c == 'P' || c == 'p' then Some(AboutY)
    else if c == 'Y' || c == 'y' then Some(AboutZ)
    else None
  }

  /** The order letters are read case-insensitively, and exactly R, P and Y
      (in either case) name an axis, each a different one. */
  lemma AxisIgnoresCase(c: char)
    ensures AxisOf(c) == AxisOf(ToLower(c))
    ensures AxisOf(c).Some? <==> ToLower(c) in {'r', 'p', 'y'}
    ensures AxisOf('r') != AxisOf('p') && AxisOf('p') != AxisOf('y') && AxisOf('r') != AxisOf('y')
  {
  }

  /** parse_order: clear the output, then push one axis per character; stop
      with false at the first character that names none. */
  method ParseOrder(order: string) returns (ok: bool, out: seq<RotType>)
    ensures ok <==> forall j :: 0 <= j < |order| ==> AxisOf(order[j]).Some?
    ensures |out| <= |order| && forall j :: 0 <= j < |out| ==> AxisOf(order[j]) == Some(out[j])
    ensures ok ==> |out| == |order|
    ensures !ok ==> |out| < |order| && AxisOf(order[|out|]).None?
  {
    out := [];
    for i := 0 to |order|
      invariant |out| == i
      invariant forall j :: 0 <= j < i ==> AxisOf(order[j]) == Some(out[j])
    {
      match order[i] {
        case 'R' => out := out + [AboutX];
        case 'r' => out := out + [AboutX];
        case 'P' => out := out + [AboutY];
        case 'p' => out := out + [AboutY];
        case 'Y' => out := out + [AboutZ];
        case 'y' => out := out + [AboutZ];
        case _ => return false, out;
      }
    }
    return true, out;
  }

  /** The matrix make_rotation picks for one step, the angle in radians. */
  function AxisRotation(axis: RotType, angle: real, libm: Libm): Mat3
  {
    match axis
    case AboutX => RotX(angle, libm)
    case AboutY => RotY(angle, libm)
    case AboutZ => RotZ(angle, libm)
  }

  /** ident() * R(order[0], a0) * ... * R(order[n-1], a(n-1)), the angles in degrees. */
  function Composed(order: seq<RotType>, angles: seq<real>, n: nat, libm: Libm): Mat3
    requires n <= |order| && n <= |angles|
  {
    if n == 0 then Ident()
    else Product(Composed(order, angles, n - 1, libm), AxisRotation(order[n - 1], Deg2Rad(angles[n - 1]), libm))
  }

  /** make_rotation: start from the identity and multiply each step's matrix
      on the right; angles.at(i) demands an angle for every step. */
  method MakeRotation(order: seq<RotType>, angles: seq<real>, libm: Libm) returns (accum: Mat3)
    requires |order| <= |angles|
    ensures accum == Composed(order, angles, |order|, libm)
  {
    accum := Ident();
    for i := 0 to |order|
      invariant accum == Composed(order, angles, i, libm)
    {
      var angle := Deg2Rad(angles[i]);
      var m: Mat3;
      match order[i] {
        case AboutX => m := RotX(angle, libm);
        case AboutY => m := RotY(angle, libm);
        case AboutZ => m := RotZ(angle, libm);
      }
      accum := Multiply(accum, m);
    }
  }

  /** The rotations of the first n steps applied one at a time to v, the last
      step first. */
  function ApplyInTurn(order: seq<RotType>, angles: seq<real>, n: nat, libm: Libm, v: Vec3): Vec3
    requires n <= |order| && n <= |angles|
  {
    if n == 0 then v
    else ApplyInTurn(order, angles, n - 1, libm, Apply(AxisRotation(order[n - 1], Deg2Rad(angles[n - 1]), libm), v))
  }

  /** The composed matrix moves a direction as the steps do one after another,
      the last step of the order acting first. */
  lemma {:induction false} ComposedAppliesInTurn(order: seq<RotType>, angles: seq<real>, n: nat, libm: Libm, v: Vec3)
    requires n <= |order| && n <= |angles|
    ensures Apply(Composed(order, angles, n, libm), v) == ApplyInTurn(order, angles, n, libm, v)
  {
    if n == 0 {
      ApplyIdent(v);
    } else {
      var m := AxisRotation(order[n - 1], Deg2Rad(angles[n - 1]), libm);
      ApplyProduct(Composed(order, angles, n - 1, libm), m, v);
      ComposedAppliesInTurn(order, angles, n - 1, libm, Apply(m, v));
    }
  }

  /** With the default roll, pitch, yaw sequence a direction is yawed first,
      then pitched, then rolled. */
  lemma DefaultSequenceOrder(a: real, b: real, c: real, libm: Libm, v: Vec3)
    ensures Apply(Composed(DefaultSequence, [a, b, c], 3, libm), v)
         == Apply(RotX(Deg2Rad(a), libm), Apply(RotY(Deg2Rad(b), libm), Apply(RotZ(Deg2Rad(c), libm), v)))
  {
    var angles := [a, b, c];
    var z := Apply(RotZ(Deg2Rad(c), libm), v);
    var y := Apply(RotY(Deg2Rad(b), libm), z);
    ComposedAppliesInTurn(DefaultSequence, angles, 3, libm, v);
    assert ApplyInTurn(DefaultSequence, angles, 3, libm, v) == ApplyInTurn(DefaultSequence, angles, 2, libm, z);
    assert ApplyInTurn(DefaultSequence, angles, 2, libm, z) == ApplyInTurn(DefaultSequence, angles, 1, libm, y);
  }

  /** Only the first n angles take part: extra angles are ignored. */
  lemma {:induction false} ExtraAnglesIgnored(order: seq<RotType>, angles: seq<real>, angles': seq<real>, n: nat, libm: Libm)
    requires n <= |order| && n <= |angles| && n <= |angles'|
    requires forall i :: 0 <= i < n ==> angles[i] == angles'[i]
    ensures Composed(order, angles, n, libm) == Composed(order, angles', n, libm)
  {
    if n > 0 {
      ExtraAnglesIgnored(order, angles, angles', n - 1, libm);
    }
  }

  /** At angle zero every axis rotation is the identity, given cos 0 = 1 and sin 0 = 0. */
  lemma AxisRotationAtZero(axis: RotType, libm: Libm)
    requires libm.cos(0.0) == 1.0 && libm.sin(0.0) == 0.0
    ensures AxisRotation(axis, 0.0, libm) == Ident()
  {
    RotationsAtZero(libm);
  }

  /** Steps with a zero angle are the identity, given cos 0 = 1 and sin 0 = 0:
      steps k..n-1 at angle zero leave the first k steps' matrix as it is. */
  lemma {:induction false} ZeroAnglesAddNothing(order: seq<RotType>, angles: seq<real>, k: nat, n: nat, libm: Libm)
    requires libm.cos(0.0) == 1.0 && libm.sin(0.0) == 0.0
    requires k <= n <= |order| && n <= |angles|
    requires forall i :: k <= i < n ==> angles[i] == 0.0
    ensures Composed(order, angles, n, libm) == Composed(order, angles, k, libm)
    decreases n - k
  {
    if k < n {
      var before := Composed(order, angles, n - 1, libm);
      ZeroAnglesAddNothing(order, angles, k, n - 1, libm);
      assert Deg2Rad(angles[n - 1]) == 0.0;
      AxisRotationAtZero(order[n - 1], libm);
      IdentRightNeutral(before);
    }
  }

  /** The padding loop in main: push 0.0 while the sequence has more steps
      than there are angles. */
  method PadAngles(sequence: seq<RotType>, angles: seq<real>) returns (padded: seq<real>)
    ensures |padded| == if |sequence| > |angles| then |sequence| else |angles|
    ensures forall i :: 0 <= i < |angles| ==> padded[i] == angles[i]
    ensures forall i :: |angles| <= i < |padded| ==> padded[i] == 0.0
  {
    padded := angles;
    while |sequence| > |padded|
      invariant |angles| <= |padded|
      invariant |sequence| > |angles| ==> |padded| <= |sequence|
      invariant |sequence| <= |angles| ==> |padded| == |angles|
      invariant forall i :: 0 <= i < |angles| ==> padded[i] == angles[i]
      invariant forall i :: |angles| <= i < |padded| ==> padded[i] == 0.0
      decreases |sequence| - |padded|
    {
      padded := padded + [0.0];
    }
  }

  /** After padding make_rotation's demand is met, and the padded steps add
      no rotation: the result is the product over the specified angles. */
  lemma PaddingAddsNoRotation(order: seq<RotType>, angles: seq<real>, padded: seq<real>, libm: Libm)
    requires libm.cos(0.0) == 1.0 && libm.sin(0.0) == 0.0
    requires |padded| == if |order| > |angles| then |order| else |angles|
    requires forall i :: 0 <= i < |angles| ==> padded[i] == angles[i]
    requires forall i :: |angles| <= i < |padded| ==> padded[i] == 0.0
    ensures |order| <= |padded|
    ensures |angles| < |order| ==> Composed(order, padded, |order|, libm) == Composed(order, angles, |angles|, libm)
  {
    if |angles| < |order| {
      assert Composed(order, padded, |order|, libm) == Composed(order, padded, |angles|, libm) by {
        ZeroAnglesAddNothing(order, padded, |angles|, |order|, libm);
      }
      assert Composed(order, padded, |angles|, libm) == Composed(order, angles, |angles|, libm) by {
        ExtraAnglesIgnored(order, padded, angles, |angles|, libm);
      }
    }
  }

  /** The destination of main: declared as an empty `Image<RGBAF>` and resized
      to the source's dimensions before the remap, so it is fully sized and
      every cell is transparent black. */
  method MakeDestination(width: nat, height: nat) returns (dst: Raster.Image<Colour.RGBAF>)
    ensures fresh(dst)
    ensures dst.width == width && dst.height == height && dst.Sized()
    ensures dst.blank == Colour.Zero()
    ensures forall i :: 0 <= i < |dst.values| ==> dst.values[i] == Colour.Zero()
  {
    dst := Raster.NewColourImage();
    dst.Resize(width, height);
  }
}
