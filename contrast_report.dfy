/**
  The report driver: for every palette, every role of the palette and every
  reference background, the contrast of the role's colour against the
  background and its AA / AAA verdicts. A role whose ANSI code has no entry in
  the colour table yields one "not mapped" row and no background rows. The
  console text is not modelled: the driver builds the sequence of rows the
  program prints, in the order it prints them.

  The program's tables are dictionaries iterated in insertion order; here the
  palettes and the backgrounds are sequences in that order, and the colour
  table, which is only looked up, is a map.
*/
module ContrastReport {
  import opened Wrappers
  import opened Color
  import opened Wcag

  /** A named role of a palette and the ANSI 256 code it is drawn in. */
  datatype Role = Role(name: string, code: int)

  datatype Palette = Palette(name: string, roles: seq<Role>)

  /** A reference terminal background. */
  datatype Background = Background(name: string, rgb: Rgb)

  /** One entry of the report. */
  datatype Row =
    | NotMapped(palette: string, role: string, code: int)
    | Measured(palette: string, role: string, code: int, rgb: Rgb,
               background: string, ratio: real, aa: bool, aaa: bool)

  /** The row for one role colour against one background. */
  function MeasuredRow(pow: real -> real, palette: string, role: Role, rgb: Rgb, bg: Background): (row: Row)
    requires IsGammaPower(pow)
    ensures row.Measured? && row.palette == palette && row.role == role.name && row.code == role.code
    ensures row.rgb == rgb && row.background == bg.name
    ensures 1.0 <= row.ratio <= 21.0 && row.ratio == ContrastRatio(pow, rgb, bg.rgb)
    ensures row.aa <==> row.ratio >= 4.5
    ensures row.aaa <==> row.ratio >= 7.0
  {
    var ratio := ContrastRatio(pow, rgb, bg.rgb);
    Measured(palette, role.name, role.code, rgb, bg.name, ratio, MeetsAA(ratio), MeetsAAA(ratio))
  }

  /** The rows of a mapped role, background after background. */
  function BackgroundRows(pow: real -> real, palette: string, role: Role, rgb: Rgb, bgs: seq<Background>)
    : seq<Row>
    requires IsGammaPower(pow)
  {
    if bgs == [] then []
    else BackgroundRows(pow, palette, role, rgb, bgs[..|bgs| - 1])
         + [MeasuredRow(pow, palette, role, rgb, bgs[|bgs| - 1])]
  }

  /** A mapped role has one row per background, in the order of the backgrounds. */
  lemma {:induction false} BackgroundRowsInOrder(pow: real -> real, palette: string, role: Role, rgb: Rgb, bgs: seq<Background>)
    requires IsGammaPower(pow)
    ensures var rows := BackgroundRows(pow, palette, role, rgb, bgs);
      && |rows| == |bgs|
      && forall k :: 0 <= k < |bgs| ==> rows[k] == MeasuredRow(pow, palette, role, rgb, bgs[k])
  {
    if bgs != [] {
      BackgroundRowsInOrder(pow, palette, role, rgb, bgs[..|bgs| - 1]);
    }
  }

  /** The rows of one role. */
  function RoleRows(pow: real -> real, colors: map<int, Rgb>, bgs: seq<Background>, palette: string, role: Role)
    : seq<Row>
    requires IsGammaPower(pow)
  {
    match Get(colors, role.code)
    case None => [NotMapped(palette, role.name, role.code)]
    case Some(rgb) => BackgroundRows(pow, palette, role, rgb, bgs)
  }

  /**
    A role whose code misses in the colour table gives exactly one "not mapped"
    row and no background rows; a mapped role gives one row per background, in
    order, each measured against the colour the table holds for its code.
  */
  lemma RoleRowsShape(pow: real -> real, colors: map<int, Rgb>, bgs: seq<Background>, palette: string, role: Role)
    requires IsGammaPower(pow)
    ensures var rows := RoleRows(pow, colors, bgs, palette, role);
      && (role.code !in colors ==> rows == [NotMapped(palette, role.name, role.code)])
      && (role.code in colors ==>
            && |rows| == |bgs|
            && forall k :: 0 <= k < |bgs| ==> rows[k] == MeasuredRow(pow, palette, role, colors[role.code], bgs[k]))
  {
    if role.code in colors {
      BackgroundRowsInOrder(pow, palette, role, colors[role.code], bgs);
    }
  }

  /** The rows of a palette's roles, role after role. */
  function PaletteRows(pow: real -> real, colors: map<int, Rgb>, bgs: seq<Background>, palette: string, roles: seq<Role>)
    : seq<Row>
    requires IsGammaPower(pow)
  {
    if roles == [] then []
    else PaletteRows(pow, colors, bgs, palette, roles[..|roles| - 1])
         + RoleRows(pow, colors, bgs, palette, roles[|roles| - 1])
  }

  /** The whole report, palette after palette. */
  function Report(pow: real -> real, colors: map<int, Rgb>, bgs: seq<Background>, palettes: seq<Palette>)
    : seq<Row>
    requires IsGammaPower(pow)
  {
    if palettes == [] then []
    else Report(pow, colors, bgs, palettes[..|palettes| - 1])
         + PaletteRows(pow, colors, bgs, palettes[|palettes| - 1].name, palettes[|palettes| - 1].roles)
  }

  /** How many rows one role contributes, by the rule of the driver. */
  function RoleRowCount(colors: map<int, Rgb>, bgs: seq<Background>, role: Role): nat {
    if role.code in colors then |bgs| else 1
  }

  function RolesRowCount(colors: map<int, Rgb>, bgs: seq<Background>, roles: seq<Role>): nat {
    if roles == [] then 0
    else RolesRowCount(colors, bgs, roles[..|roles| - 1]) + RoleRowCount(colors, bgs, roles[|roles| - 1])
  }

  function ExpectedRowCount(colors: map<int, Rgb>, bgs: seq<Background>, palettes: seq<Palette>): nat {
    if palettes == [] then 0
    else ExpectedRowCount(colors, bgs, palettes[..|palettes| - 1])
         + RolesRowCount(colors, bgs, palettes[|palettes| - 1].roles)
  }

  /** A palette contributes, role after role, one row per background or one "not mapped" row. */
  lemma {:induction false} PaletteRowsLength(pow: real -> real, colors: map<int, Rgb>, bgs: seq<Background>,
                                             palette: string, roles: seq<Role>)
    requires IsGammaPower(pow)
    ensures |PaletteRows(pow, colors, bgs, palette, roles)| == RolesRowCount(colors, bgs, roles)
  {
    if roles != [] {
      PaletteRowsLength(pow, colors, bgs, palette, roles[..|roles| - 1]);
      RoleRowsShape(pow, colors, bgs, palette, roles[|roles| - 1]);
    }
  }

  /** The report has exactly as many rows as the counting rule says: nothing is skipped or repeated. */
  lemma {:induction false} ReportLength(pow: real -> real, colors: map<int, Rgb>, bgs: seq<Background>,
                                        palettes: seq<Palette>)
    requires IsGammaPower(pow)
    ensures |Report(pow, colors, bgs, palettes)| == ExpectedRowCount(colors, bgs, palettes)
  {
    if palettes != [] {
      var last := palettes[|palettes| - 1];
      ReportLength(pow, colors, bgs, palettes[..|palettes| - 1]);
      PaletteRowsLength(pow, colors, bgs, last.name, last.roles);
    }
  }

  lemma {:induction false} RoleBlockInPalette(pow: real -> real, colors: map<int, Rgb>, bgs: seq<Background>,
                                              palette: string, roles: seq<Role>, j: nat)
    requires IsGammaPower(pow) && j < |roles|
    ensures forall row :: row in RoleRows(pow, colors, bgs, palette, roles[j]) ==>
      row in PaletteRows(pow, colors, bgs, palette, roles)
  {
    var n := |roles|;
    if j < n - 1 {
      RoleBlockInPalette(pow, colors, bgs, palette, roles[..n - 1], j);
    }
  }

  lemma {:induction false} PaletteBlockInReport(pow: real -> real, colors: map<int, Rgb>, bgs: seq<Background>,
                                                palettes: seq<Palette>, i: nat)
    requires IsGammaPower(pow) && i < |palettes|
    ensures forall row :: row in PaletteRows(pow, colors, bgs, palettes[i].name, palettes[i].roles) ==>
      row in Report(pow, colors, bgs, palettes)
  {
    var n := |palettes|;
    if i < n - 1 {
      PaletteBlockInReport(pow, colors, bgs, palettes[..n - 1], i);
    }
  }

  /**
    No (palette, role, background) triple is skipped: an unmapped role has its
    "not mapped" row in the report, and a mapped role has its row for every
    background.
  */
  lemma ReportComplete(pow: real -> real, colors: map<int, Rgb>, bgs: seq<Background>, palettes: seq<Palette>,
                       i: nat, j: nat)
    requires IsGammaPower(pow) && i < |palettes| && j < |palettes[i].roles|
    ensures var p, role := palettes[i], palettes[i].roles[j];
      && (role.code !in colors ==> NotMapped(p.name, role.name, role.code) in Report(pow, colors, bgs, palettes))
      && (role.code in colors ==> forall k :: 0 <= k < |bgs| ==>
            MeasuredRow(pow, p.name, role, colors[role.code], bgs[k]) in Report(pow, colors, bgs, palettes))
  {
    var p, role := palettes[i], palettes[i].roles[j];
    RoleRowsShape(pow, colors, bgs, p.name, role);
    RoleBlockInPalette(pow, colors, bgs, p.name, p.roles, j);
    PaletteBlockInReport(pow, colors, bgs, palettes, i);
  }

  lemma {:induction false} PaletteRowSource(pow: real -> real, colors: map<int, Rgb>, bgs: seq<Background>,
                                            palette: string, roles: seq<Role>, row: Row)
    requires IsGammaPower(pow) && row in PaletteRows(pow, colors, bgs, palette, roles)
    ensures exists j :: 0 <= j < |roles| && row in RoleRows(pow, colors, bgs, palette, roles[j])
  {
    var n := |roles|;
    if row !in RoleRows(pow, colors, bgs, palette, roles[n - 1]) {
      PaletteRowSource(pow, colors, bgs, palette, roles[..n - 1], row);
      var j :| 0 <= j < n - 1 && row in RoleRows(pow, colors, bgs, palette, roles[..n - 1][j]);
      assert roles[..n - 1][j] == roles[j];
    }
  }

  lemma {:induction false} ReportRowSource(pow: real -> real, colors: map<int, Rgb>, bgs: seq<Background>,
                                           palettes: seq<Palette>, row: Row)
    requires IsGammaPower(pow) && row in Report(pow, colors, bgs, palettes)
    ensures exists i, j ::
      && 0 <= i < |palettes| && 0 <= j < |palettes[i].roles|
      && row in RoleRows(pow, colors, bgs, palettes[i].name, palettes[i].roles[j])
  {
    var n := |palettes|;
    var last := palettes[n - 1];
    if row in PaletteRows(pow, colors, bgs, last.name, last.roles) {
      PaletteRowSource(pow, colors, bgs, last.name, last.roles, row);
      var j :| 0 <= j < |last.roles| && row in RoleRows(pow, colors, bgs, last.name, last.roles[j]);
      assert row in RoleRows(pow, colors, bgs, palettes[n - 1].name, palettes[n - 1].roles[j]);
    } else {
      ReportRowSource(pow, colors, bgs, palettes[..n - 1], row);
      var i, j :| 0 <= i < n - 1 && 0 <= j < |palettes[..n - 1][i].roles|
        && row in RoleRows(pow, colors, bgs, palettes[..n - 1][i].name, palettes[..n - 1][i].roles[j]);
      assert palettes[..n - 1][i] == palettes[i];
    }
  }

  /**
    Every row of the report comes from the configuration: a "not mapped" row
    from a role whose code misses in the colour table, a measured row from a
    mapped role and one background, measured against the table's colour.
  */
  lemma ReportSound(pow: real -> real, colors: map<int, Rgb>, bgs: seq<Background>, palettes: seq<Palette>, row: Row)
    requires IsGammaPower(pow) && row in Report(pow, colors, bgs, palettes)
    ensures row.NotMapped? ==> exists i, j ::
      && 0 <= i < |palettes| && 0 <= j < |palettes[i].roles|
      && palettes[i].roles[j].code !in colors
      && row == NotMapped(palettes[i].name, palettes[i].roles[j].name, palettes[i].roles[j].code)
    ensures row.Measured? ==> exists i, j, k ::
      && 0 <= i < |palettes| && 0 <= j < |palettes[i].roles| && 0 <= k < |bgs|
      && palettes[i].roles[j].code in colors
      && row == MeasuredRow(pow, palettes[i].name, palettes[i].roles[j], colors[palettes[i].roles[j].code], bgs[k])
  {
    ReportRowSource(pow, colors, bgs, palettes, row);
    var i, j :| 0 <= i < |palettes| && 0 <= j < |palettes[i].roles|
      && row in RoleRows(pow, colors, bgs, palettes[i].name, palettes[i].roles[j]);
    var p, role := palettes[i], palettes[i].roles[j];
    RoleRowsShape(pow, colors, bgs, p.name, role);
    if role.code in colors {
      var rows := RoleRows(pow, colors, bgs, p.name, role);
      var k :| 0 <= k < |rows| && rows[k] == row;
      assert row == MeasuredRow(pow, p.name, role, colors[role.code], bgs[k]);
    }
  }

  /**
    Every measured row of the report carries a ratio in [1, 21] and the
    verdicts of the two thresholds; AAA never passes where AA fails.
  */
  lemma ReportVerdicts(pow: real -> real, colors: map<int, Rgb>, bgs: seq<Background>, palettes: seq<Palette>)
    requires IsGammaPower(pow)
    ensures forall row :: row in Report(pow, colors, bgs, palettes) && row.Measured? ==>
      && 1.0 <= row.ratio <= 21.0
      && (row.aa <==> MeetsAA(row.ratio))
      && (row.aaa <==> MeetsAAA(row.ratio))
      && (row.aaa ==> row.aa)
  {
    forall row | row in Report(pow, colors, bgs, palettes) && row.Measured?
      ensures 1.0 <= row.ratio <= 21.0 && (row.aa <==> MeetsAA(row.ratio)) && (row.aaa <==> MeetsAAA(row.ratio))
    {
      ReportSound(pow, colors, bgs, palettes, row);
    }
  }

  /**
    The driver: palettes in table order; each palette's roles, then each
    role's backgrounds, are the two loops nested in it.
  */
  method BuildReport(pow: real -> real, colors: map<int, Rgb>, backgrounds: seq<Background>, palettes: seq<Palette>)
    returns (rows: seq<Row>)
    requires IsGammaPower(pow)
    ensures rows == Report(pow, colors, backgrounds, palettes)
  {
    rows := [];
    var i := 0;
    while i < |palettes|
      invariant 0 <= i <= |palettes|
      invariant rows == Report(pow, colors, backgrounds, palettes[..i])
    {
      assert palettes[..i + 1][..i] == palettes[..i];
      var block := BuildPaletteRows(pow, colors, backgrounds, palettes[i]);
      rows := rows + block;
      i := i + 1;
    }
    assert palettes[..i] == palettes;
  }

  /**
    The loop over one palette's roles: a role whose code misses in the colour
    table gets its "not mapped" row and no background loop, and the loop goes
    on with the next role.
  */
  method BuildPaletteRows(pow: real -> real, colors: map<int, Rgb>, backgrounds: seq<Background>, palette: Palette)
    returns (rows: seq<Row>)
    requires IsGammaPower(pow)
    ensures rows == PaletteRows(pow, colors, backgrounds, palette.name, palette.roles)
  {
    rows := [];
    var j := 0;
    while j < |palette.roles|
      invariant 0 <= j <= |palette.roles|
      invariant rows == PaletteRows(pow, colors, backgrounds, palette.name, palette.roles[..j])
    {
      var role := palette.roles[j];
      assert palette.roles[..j + 1][..j] == palette.roles[..j];
      var found := Get(colors, role.code);
      if found.None? {
        rows := rows + [NotMapped(palette.name, role.name, role.code)];
      } else {
        var block := BuildBackgroundRows(pow, palette.name, role, found.value, backgrounds);
        rows := rows + block;
      }
      j := j + 1;
    }
    assert palette.roles[..j] == palette.roles;
  }

  /** The innermost loop of the driver: one measured row per background, in order. */
  method BuildBackgroundRows(pow: real -> real, palette: string, role: Role, rgb: Rgb, backgrounds: seq<Background>)
    returns (rows: seq<Row>)
    requires IsGammaPower(pow)
    ensures rows == BackgroundRows(pow, palette, role, rgb, backgrounds)
  {
    rows := [];
    var k := 0;
    while k < |backgrounds|
      invariant 0 <= k <= |backgrounds|
      invariant rows == BackgroundRows(pow, palette, role, rgb, backgrounds[..k])
    {
      var bg := backgrounds[k];
      assert backgrounds[..k + 1][..k] == backgrounds[..k];
      var ratio := ContrastRatio(pow, rgb, bg.rgb);
      var aa, aaa := MeetsAA(ratio), MeetsAAA(ratio);
      rows := rows + [Measured(palette, role.name, role.code, rgb, bg.name, ratio, aa, aaa)];
      k := k + 1;
    }
    assert backgrounds[..k] == backgrounds;
  }
}
