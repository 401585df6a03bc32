/**
  The configuration the checker ships with: the colour table for the ANSI
  256 codes it uses, the four reference backgrounds and the three palettes.
*/
module Tables {
  import opened Color
  import opened Wcag
  import opened ContrastReport

  /** ANSI 256 code to its approximate xterm colour; only looked up, never iterated. */
  const AnsiColors: map<int, Rgb> := map[
    33 := Rgb(0, 135, 215),
    40 := Rgb(0, 215, 0),
    45 := Rgb(0, 215, 255),
    46 := Rgb(0, 255, 0),
    51 := Rgb(0, 255, 255),
    75 := Rgb(95, 175, 255),
    76 := Rgb(95, 215, 135),
    117 := Rgb(135, 215, 255),
    196 := Rgb(255, 0, 0),
    208 := Rgb(255, 135, 0),
    214 := Rgb(255, 175, 0),
    220 := Rgb(255, 215, 0),
    226 := Rgb(255, 255, 0),
    240 := Rgb(88, 88, 88),
    244 := Rgb(128, 128, 128)
  ]

  const Backgrounds: seq<Background> := [
    Background("Black (dark terminal)", Rgb(0, 0, 0)),
    Background("White (light terminal)", Rgb(255, 255, 255)),
    Background("Dark gray (Solarized Dark)", Rgb(0, 43, 54)),
    Background("Light gray (Solarized Light)", Rgb(253, 246, 227))
  ]

  const Palettes: seq<Palette> := [
    Palette("DEFAULT", [Role("Success", 76), Role("Error", 196), Role("Warning", 214), Role("Info", 75)]),
    Palette("COLORBLIND", [Role("Success", 33), Role("Error", 208), Role("Warning", 220), Role("Info", 45)]),
    Palette("HIGHCONTRAST", [Role("Success", 46), Role("Error", 196), Role("Warning", 226), Role("Info", 51)])
  ]

  /**
    The iteration order of the shipped tables: the three palettes, each with
    its four roles, and the four backgrounds, black and white first.
  */
  lemma ShippedTablesInOrder()
    ensures |Palettes| == 3
    ensures Palettes[0].name == "DEFAULT" && Palettes[1].name == "COLORBLIND" && Palettes[2].name == "HIGHCONTRAST"
    ensures forall i :: 0 <= i < |Palettes| ==>
      && |Palettes[i].roles| == 4
      && Palettes[i].roles[0].name == "Success" && Palettes[i].roles[1].name == "Error"
      && Palettes[i].roles[2].name == "Warning" && Palettes[i].roles[3].name == "Info"
    ensures |Backgrounds| == 4 && Backgrounds[0].rgb == Black && Backgrounds[1].rgb == White
  {
  }

  /** Every role of every shipped palette has an entry in the colour table. */
  lemma ShippedRolesMapped()
    ensures forall i, j :: 0 <= i < |Palettes| && 0 <= j < |Palettes[i].roles| ==> Palettes[i].roles[j].code in AnsiColors
  {
  }

  /** With every role mapped, each role contributes exactly one row per background. */
  lemma {:induction false} MappedRolesRowCount(colors: map<int, Rgb>, bgs: seq<Background>, roles: seq<Role>)
    requires forall j :: 0 <= j < |roles| ==> roles[j].code in colors
    ensures RolesRowCount(colors, bgs, roles) == |roles| * |bgs|
  {
    if roles != [] {
      MappedRolesRowCount(colors, bgs, roles[..|roles| - 1]);
    }
  }

  /** The shipped tables call for 3 x 4 x 4 = 48 rows. */
  lemma ShippedRowCount()
    ensures ExpectedRowCount(AnsiColors, Backgrounds, Palettes) == 48
  {
    ShippedRolesMapped();
    var ps := Palettes;
    assert ps[..3] == ps;
    assert ps[..3][..2] == ps[..2] && ps[..2][..1] == ps[..1] && ps[..1][..0] == [];
    MappedRolesRowCount(AnsiColors, Backgrounds, ps[0].roles);
    MappedRolesRowCount(AnsiColors, Backgrounds, ps[1].roles);
    MappedRolesRowCount(AnsiColors, Backgrounds, ps[2].roles);
    assert ExpectedRowCount(AnsiColors, Backgrounds, ps[..1]) == 16;
    assert ExpectedRowCount(AnsiColors, Backgrounds, ps[..2]) == 32;
  }

  /** With the shipped tables the report has 48 rows. */
  lemma ShippedReportLength(pow: real -> real)
    requires IsGammaPower(pow)
    ensures |Report(pow, AnsiColors, Backgrounds, Palettes)| == 48
  {
    ReportLength(pow, AnsiColors, Backgrounds, Palettes);
    ShippedRowCount();
  }

  /** With the shipped tables no "not mapped" notice is emitted. */
  lemma ShippedReportAllMeasured(pow: real -> real)
    requires IsGammaPower(pow)
    ensures forall row :: row in Report(pow, AnsiColors, Backgrounds, Palettes) ==> row.Measured?
  {
    ShippedRolesMapped();
    forall row | row in Report(pow, AnsiColors, Backgrounds, Palettes) ensures row.Measured? {
      ReportSound(pow, AnsiColors, Backgrounds, Palettes, row);
    }
  }

  /**
    The DEFAULT palette's Error role (ANSI 196, pure red) on the black
    terminal is reported at 5.252:1, passing AA and failing AAA.
  */
  lemma ShippedErrorOnBlack(pow: real -> real)
    requires IsGammaPower(pow)
    ensures Measured("DEFAULT", "Error", 196, Rgb(255, 0, 0), "Black (dark terminal)", 5.252, true, false)
         in Report(pow, AnsiColors, Backgrounds, Palettes)
  {
    var red, black := Rgb(255, 0, 0), Backgrounds[0];
    assert Palettes[0].name == "DEFAULT" && Palettes[0].roles[1] == Role("Error", 196);
    assert AnsiColors[196] == red && black == Background("Black (dark terminal)", Black);
    RedOnBlack(pow);
    var row := MeasuredRow(pow, "DEFAULT", Role("Error", 196), red, black);
    assert row == Measured("DEFAULT", "Error", 196, red, "Black (dark terminal)", 5.252, true, false);
    ReportComplete(pow, AnsiColors, Backgrounds, Palettes, 0, 1);
  }
}
