/** The spaceship record (class Spaceship in src/main.cpp): one pick from
    each list of the catalogue, and the text operator<< writes for it. */
module Ship {
  import opened Optional
  import opened Strings
  import opened Parts

  /** The line operator<< writes for one weapon. */
  function WeaponLine(w: string): string {
    "    " + w + "\n"
  }

  /** The weapon lines operator<< writes, one per weapon, in order. */
  function WeaponLines(ws: seq<string>): string {
    if ws == [] then ""
    else WeaponLines(ws[..|ws| - 1]) + WeaponLine(ws[|ws| - 1])
  }

  /** Writing one more weapon extends the weapon lines by that weapon's line. */
  lemma WeaponLinesSnoc(ws: seq<string>, i: nat)
    requires i < |ws|
    ensures WeaponLines(ws[..i + 1]) == WeaponLines(ws[..i]) + WeaponLine(ws[i])
  {
    assert ws[..i + 1][..i] == ws[..i];
  }

  /** What follows the "Weapons (n): " header: "N/A" for no weapons, else a
      line break and the weapon lines. */
  function WeaponsBlock(ws: seq<string>): string {
    if ws != [] then "\n" + WeaponLines(ws) else "N/A\n"
  }

  /** The weapons as the indented lines of the printed text. */
  function Indented(ws: seq<string>): (ls: seq<string>)
    ensures |ls| == |ws|
    ensures forall i :: 0 <= i < |ws| ==> ls[i] == "    " + ws[i]
  {
    if ws == [] then []
    else Indented(ws[..|ws| - 1]) + ["    " + ws[|ws| - 1]]
  }

  class Spaceship {
    var engine: string
    var fuselage: string
    var cabin: string
    var largeWings: Option<string>
    var smallWings: Option<string>
    var armour: string
    var weapons: seq<string>

    /** A default-constructed ship: empty strings, no wings, no weapons. */
    constructor ()
      ensures engine == "" && fuselage == "" && cabin == "" && armour == ""
      ensures largeWings == None && smallWings == None && weapons == []
    {
      engine, fuselage, cabin, armour := "", "", "", "";
      largeWings, smallWings := None, None;
      weapons := [];
    }

    /** Generate: `largeDraw` and `smallDraw` are the numbers the two GetWing
        calls draw, `weaponDraw` the count GetWeapons draws. */
    method Generate(parts: SpaceshipParts, largeDraw: nat, smallDraw: nat, weaponDraw: nat)
      requires largeDraw <= |parts.wingsParts| && smallDraw <= |parts.wingsParts|
      requires weaponDraw <= 4
      modifies this
      ensures engine == parts.GetEngine() && fuselage == parts.GetFuselage()
      ensures cabin == parts.GetCabin() && armour == parts.GetArmour()
      ensures largeWings == parts.GetWing(largeDraw) && smallWings == parts.GetWing(smallDraw)
      ensures weapons == parts.GetWeapons(weaponDraw)
      ensures parts.fuselageParts == [] ==> fuselage == "N/A"
      ensures parts.wingsParts == [] ==> largeWings == None && smallWings == None
      ensures |weapons| <= 4 && |weapons| <= |parts.weaponParts|
      ensures parts.Valid() ==> forall w :: w in weapons ==> Classify(w) == Some(Weapon)
      ensures parts.Valid() ==> SingleLineFields()
    {
      engine := parts.GetEngine();
      fuselage := parts.GetFuselage();
      cabin := parts.GetCabin();
      armour := parts.GetArmour();
      largeWings := parts.GetWing(largeDraw);
      smallWings := parts.GetWing(smallDraw);
      weapons := parts.GetWeapons(weaponDraw);
    }

    /** The first statement of operator<<: the banner, the labelled parts
        (value_or("N/A") for the wings) and the weapons header with the count.
        Each line break is written as a piece of its own, which spells the
        same text. */
    function Header(): string
      reads this
    {
      "\n" + "+++ Generated spaceship +++"
      + "\n" + "  Engine: " + engine
      + "\n" + "  Fuselage: " + fuselage
      + "\n" + "  Cabin: " + cabin
      + "\n" + "  Large wings: " + largeWings.GetOr("N/A")
      + "\n" + "  Small wings: " + smallWings.GetOr("N/A")
      + "\n" + "  Armour: " + armour
      + "\n" + "  Weapons (" + NatToString(|weapons|) + "): "
    }

    /** The text operator<< writes for the ship. */
    function Render(): string
      reads this
    {
      Header() + WeaponsBlock(weapons)
    }

    /** operator<<: writes the ship to a stream that already holds `os`. */
    method WriteTo(os: string) returns (out: string)
      ensures out == os + Render()
    {
      var header := Header();
      out := os + header;
      if weapons != [] {
        out := out + "\n";
        ghost var head := out;
        for i := 0 to |weapons|
          invariant out == head + WeaponLines(weapons[..i])
        {
          WeaponLinesSnoc(weapons, i);
          AppendAssoc(head, WeaponLines(weapons[..i]), WeaponLine(weapons[i]));
          out := out + WeaponLine(weapons[i]);
        }
        assert weapons[..|weapons|] == weapons;
        AppendAssoc(os + header, "\n", WeaponLines(weapons));
        AppendAssoc(os, header, "\n" + WeaponLines(weapons));
      } else {
        out := out + "N/A\n";
      }
    }

    /** Every text field and pick of the ship is a single line. */
    ghost predicate SingleLineFields()
      reads this
    {
      && NoNewline(engine) && NoNewline(fuselage) && NoNewline(cabin) && NoNewline(armour)
      && NoNewline(largeWings.GetOr("N/A")) && NoNewline(smallWings.GetOr("N/A"))
      && forall w :: w in weapons ==> NoNewline(w)
    }
  }

  /** A labelled value on a new line adds exactly that line. */
  lemma LabelledLine(x: string, tag: string, value: string)
    requires NoNewline(tag) && NoNewline(value)
    ensures SplitLines(x + "\n" + tag + value) == SplitLines(x) + [tag + value]
  {
    SplitAppendLine(x, tag);
    SplitAppendPlain(x + "\n" + tag, value);
  }

  /** One weapon's line, when the current last line is empty, becomes that
      indented line and opens a new empty one. */
  lemma WeaponLineSplit(y: string, w: string)
    requires NoNewline(w)
    requires var ls := SplitLines(y); ls[|ls| - 1] == ""
    ensures var ls := SplitLines(y);
      SplitLines(y + WeaponLine(w)) == ls[..|ls| - 1] + ["    " + w] + [""]
  {
    var ls := SplitLines(y);
    var line := "    " + w;
    assert NoNewline(line) by {
      assert forall i :: 0 <= i < |line| ==> line[i] == ' ' || line[i] in w;
    }
    SplitAppendPlain(y, line);
    assert ls[|ls| - 1] + line == line;
    var z := y + line;
    assert (z + "\n")[..|z|] == z;
    assert y + WeaponLine(w) == z + "\n";
  }

  /** The weapon lines after a line break add one indented line per weapon,
      in order, and an empty last line. */
  lemma {:induction false} WeaponLinesSplit(x: string, ws: seq<string>)
    requires forall w :: w in ws ==> NoNewline(w)
    ensures SplitLines(x + "\n" + WeaponLines(ws)) == SplitLines(x) + Indented(ws) + [""]
    decreases |ws|
  {
    if ws == [] {
      assert x + "\n" + WeaponLines(ws) == x + "\n";
      assert (x + "\n")[..|x|] == x;
    } else {
      var init, w := ws[..|ws| - 1], ws[|ws| - 1];
      assert forall v :: v in init ==> v in ws;
      WeaponLinesSplit(x, init);
      var y := x + "\n" + WeaponLines(init);
      var ls, front := SplitLines(y), SplitLines(x);
      assert ls == front + Indented(init) + [""];
      assert w in ws;
      WeaponLineSplit(y, w);
      assert ls[..|ls| - 1] == front + Indented(init);
      AppendAssoc(x + "\n", WeaponLines(init), WeaponLine(w));
      AppendAssoc(front, Indented(init), ["    " + w]);
    }
  }

  /** The banner and the labelled parts, line by line. */
  lemma HeaderLines(sp: Spaceship)
    requires sp.SingleLineFields()
    ensures SplitLines(sp.Header()) ==
      [""] + ["+++ Generated spaceship +++"]
      + ["  Engine: " + sp.engine]
      + ["  Fuselage: " + sp.fuselage]
      + ["  Cabin: " + sp.cabin]
      + ["  Large wings: " + sp.largeWings.GetOr("N/A")]
      + ["  Small wings: " + sp.smallWings.GetOr("N/A")]
      + ["  Armour: " + sp.armour]
      + ["  Weapons (" + NatToString(|sp.weapons|) + "): "]
  {
    var large, small := sp.largeWings.GetOr("N/A"), sp.smallWings.GetOr("N/A");
    var count := NatToString(|sp.weapons|);
    var t0 := "\n" + "+++ Generated spaceship +++";
    assert SplitLines(t0) == [""] + ["+++ Generated spaceship +++"] by {
      SplitAppendLine("", "+++ Generated spaceship +++");
      assert "" + "\n" == "\n";
    }
    var t1 := t0 + "\n" + "  Engine: " + sp.engine;
    LabelledLine(t0, "  Engine: ", sp.engine);
    var t2 := t1 + "\n" + "  Fuselage: " + sp.fuselage;
    LabelledLine(t1, "  Fuselage: ", sp.fuselage);
    var t3 := t2 + "\n" + "  Cabin: " + sp.cabin;
    LabelledLine(t2, "  Cabin: ", sp.cabin);
    var t4 := t3 + "\n" + "  Large wings: " + large;
    LabelledLine(t3, "  Large wings: ", large);
    var t5 := t4 + "\n" + "  Small wings: " + small;
    LabelledLine(t4, "  Small wings: ", small);
    var t6 := t5 + "\n" + "  Armour: " + sp.armour;
    LabelledLine(t5, "  Armour: ", sp.armour);
    var t7 := t6 + "\n" + "  Weapons (";
    SplitAppendLine(t6, "  Weapons (");
    SplitAppendPlain(t7, count);
    SplitAppendPlain(t7 + count, "): ");
  }

  /** The text written when there are no weapons ends the header line. */
  lemma NoWeaponsText()
    ensures "N/A\n" == "N/A" + "\n" && NoNewline("N/A")
  {
  }

  /** The printed text, line by line: the banner, one labelled line per part
      ("N/A" for an absent wing), the weapons header with the weapon count and
      "N/A" when there are none, then one indented line per weapon in order. */
  lemma RenderLines(sp: Spaceship)
    requires sp.SingleLineFields()
    ensures SplitLines(sp.Render()) ==
      [""] + ["+++ Generated spaceship +++"]
      + ["  Engine: " + sp.engine]
      + ["  Fuselage: " + sp.fuselage]
      + ["  Cabin: " + sp.cabin]
      + ["  Large wings: " + sp.largeWings.GetOr("N/A")]
      + ["  Small wings: " + sp.smallWings.GetOr("N/A")]
      + ["  Armour: " + sp.armour]
      + ["  Weapons (" + NatToString(|sp.weapons|) + "): " + (if sp.weapons == [] then "N/A" else "")]
      + Indented(sp.weapons) + [""]
  {
    HeaderLines(sp);
    var h := sp.Header();
    var ls := SplitLines(h);
    var countLine := "  Weapons (" + NatToString(|sp.weapons|) + "): ";
    if sp.weapons == [] {
      NoWeaponsText();
      SplitAppendPlain(h, "N/A");
      var u := h + "N/A";
      assert (u + "\n")[..|u|] == u;
      AppendAssoc(h, "N/A", "\n");
      assert ls[|ls| - 1] == countLine;
    } else {
      WeaponLinesSplit(h, sp.weapons);
      AppendAssoc(h, "\n", WeaponLines(sp.weapons));
      assert countLine + "" == countLine;
    }
  }
}
