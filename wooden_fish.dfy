/**
 The plain tap counter ("Cyber Wooden Fish"): every tap adds one merit and
 picks one of three status messages; a timer cycles the glow rings through a
 five-colour palette; floating text fades through integer colour arithmetic.
 */
module WoodenFish {
  import opened IntMath
  import HexFormat

  /** `GLOW_PALETTE`. */
  const Palette: seq<string> := ["#00e5ff", "#7a7dff", "#ff4fd8", "#7dffb3", "#ffd166"]

  /** Lifetime, in animation frames, of a floating "+1" text. */
  const TextLife: int := 24

  /** The three status messages a tap can leave. */
  datatype Status =
    | DropBlessing  // a lucky "drop", on every 30th merit
    | CalmerMind    // a calmer-mind message, on every 9th merit that is not a 30th
    | TapEcho       // the plain knock-and-plus-one message, on any other tap

  /** The message shown once the merit has reached `total`. */
  function StatusAfterTap(total: int): (st: Status)
    ensures st == DropBlessing <==> total % 30 == 0
    ensures st == CalmerMind <==> total % 30 != 0 && total % 9 == 0
    ensures st == TapEcho <==> total % 30 != 0 && total % 9 != 0
  {
    if total % 30 == 0 then DropBlessing
    else if total % 9 == 0 then CalmerMind
    else TapEcho
  }

  /** Where both rules apply (multiples of 90) the 30-rule wins. */
  lemma ThirtyRuleWins(total: int)
    requires total % 90 == 0
    ensures total % 9 == 0 && StatusAfterTap(total) == DropBlessing
  {
    var k := total / 90;
    assert total == 30 * (3 * k);
    assert total == 9 * (10 * k);
  }

  /** The messages repeat with period 90, the least common multiple of 9 and 30. */
  lemma StatusPeriodic(total: int)
    ensures StatusAfterTap(total + 90) == StatusAfterTap(total)
  {
    assert (total + 90) % 30 == total % 30 by {
      assert total + 90 == total + 30 * 3;
    }
    assert (total + 90) % 9 == total % 9 by {
      assert total + 90 == total + 9 * 10;
    }
  }

  /** The colour of glow ring `i` when the phase is `phase`. */
  function RingColour(phase: int, i: int): (c: string)
    ensures c in Palette
  {
    Palette[(phase + i) % |Palette|]
  }

  /** The next glow phase: one step round the palette, or no change when there are no rings. */
  function NextPhase(phase: int, rings: nat): (p: int)
    ensures 0 <= phase < |Palette| ==> 0 <= p < |Palette|
    ensures rings == 0 ==> p == phase
    ensures rings > 0 ==> p % |Palette| == (phase + 1) % |Palette|
  {
    if rings > 0 then (phase + 1) % |Palette| else phase
  }

  /** After five frames with rings, the glow is back where it started. */
  lemma PhaseCycles(phase: int, rings: nat)
    requires 0 <= phase < |Palette| && rings > 0
    ensures NextPhase(NextPhase(NextPhase(NextPhase(NextPhase(phase, rings), rings), rings), rings), rings) == phase
  {
  }

  /** Red-and-green level of a floating text with `life` frames left. */
  function Fade(life: int): (f: int)
    ensures f >= 60
    ensures life == TextLife ==> f == 255
    ensures 0 < life <= TextLife ==> f <= 255
  {
    Max(60, 255 - (TextLife - life) * 8)
  }

  /** The text only dims as its life runs out. */
  lemma FadeMonotone(a: int, b: int)
    requires a <= b
    ensures Fade(a) <= Fade(b)
  {
  }

  /**
   `#RRGG8a` with RR = fade and GG = fade - 25. Over the text's life it is a
   seven-character colour whose two-digit fields read back as those components.
   */
  function TextColour(life: int): (c: string)
    ensures 0 < life <= TextLife ==>
      && |c| == 7 && c[0] == '#' && c[5..] == "8a"
      && (forall i :: 1 <= i < 5 ==> HexFormat.IsHexDigit(c[i]))
      && HexFormat.ParseHex(c[1..3]) == Fade(life)
      && HexFormat.ParseHex(c[3..5]) == Fade(life) - 25
  {
    var f := Fade(life);
    HexFormat.Format02RoundTrip(f);
    HexFormat.Format02RoundTrip(f - 25);
    var red, green := HexFormat.Format02(f), HexFormat.Format02(f - 25);
    var c := "#" + red + green + "8a";
    assert |red| == 2 && |green| == 2 ==> c[1..3] == red && c[3..5] == green && c[5..] == "8a";
    c
  }

  /** Blue component of the shadow: fade - 80, never below 40. */
  function ShadowBlue(life: int): (b: int)
    ensures b >= 40
  {
    Max(40, Fade(life) - 80)
  }

  /**
   `#ff2fBB` with BB the shadow's blue. Over the text's life it is a
   seven-character colour whose last field reads back as that blue.
   */
  function ShadowColour(life: int): (c: string)
    ensures 0 < life <= TextLife ==>
      && |c| == 7 && c[..5] == "#ff2f"
      && (forall i :: 5 <= i < 7 ==> HexFormat.IsHexDigit(c[i]))
      && HexFormat.ParseHex(c[5..7]) == ShadowBlue(life)
  {
    var blue := HexFormat.Format02(ShadowBlue(life));
    HexFormat.Format02RoundTrip(ShadowBlue(life));
    var c := "#ff2f" + blue;
    assert c[..5] == "#ff2f";
    assert |blue| == 2 ==> c[5..7] == blue;
    c
  }

  /**
   Over a floating text's life every colour component lies within a byte:
   the fade between 60 and 255, fade - 25 between 35 and 230, and the
   shadow's blue between 40 and 175.
   */
  lemma ColourComponentsInRange(life: int)
    requires 0 < life <= TextLife
    ensures 60 <= Fade(life) <= 255
    ensures 35 <= Fade(life) - 25 <= 230
    ensures 40 <= ShadowBlue(life) <= 175
  {
  }

  /**
   The colours given to `count` rings at glow phase `phase`, one ring at a
   time as the loop in `animate_glow` does.
   */
  method RingColours(phase: int, count: nat) returns (colours: seq<string>)
    ensures |colours| == count
    ensures forall i :: 0 <= i < count ==> colours[i] == RingColour(phase, i)
  {
    colours := [];
    for i := 0 to count
      invariant |colours| == i
      invariant forall j :: 0 <= j < i ==> colours[j] == RingColour(phase, j)
    {
      colours := colours + [Palette[(phase + i) % |Palette|]];
    }
  }

  /** The counter window's state. */
  class Fish {
    /** `total_merit`. */
    var totalMerit: int
    /** `glow_phase`. */
    var glowPhase: int
    /** Number of glow rings on the canvas (`len(glow_ring_ids)`); `draw_fish` always draws three. */
    var rings: nat

    ghost predicate Valid()
      reads this
    {
      totalMerit >= 0 && 0 <= glowPhase < |Palette|
    }

    /** The window draws the fish (three rings) and runs the first glow frame at once. */
    constructor ()
      ensures Valid()
      ensures totalMerit == 0 && rings == 3 && glowPhase == 1
    {
      totalMerit := 0;
      glowPhase := 0;
      rings := 3;
      new;
      var _ := AnimateGlow();
    }

    /** `on_tap`: one more merit, and the status message for the new total. */
    method OnTap() returns (status: Status)
      modifies this`totalMerit
      ensures old(Valid()) ==> Valid()
      ensures totalMerit == old(totalMerit) + 1
      ensures status == StatusAfterTap(totalMerit)
    {
      totalMerit := totalMerit + 1;
      if totalMerit % 30 == 0 {
        status := DropBlessing;
      } else if totalMerit % 9 == 0 {
        status := CalmerMind;
      } else {
        status := TapEcho;
      }
    }

    /** One frame of `animate_glow`: advance the phase and recolour every ring. */
    method AnimateGlow() returns (colours: seq<string>)
      modifies this`glowPhase
      ensures old(Valid()) ==> Valid()
      ensures glowPhase == NextPhase(old(glowPhase), rings)
      ensures rings == 0 ==> colours == []
      ensures rings > 0 ==> |colours| == rings
      ensures forall i :: 0 <= i < |colours| ==> colours[i] == RingColour(glowPhase, i)
    {
      colours := [];
      if rings > 0 {
        glowPhase := (glowPhase + 1) % |Palette|;
        colours := RingColours(glowPhase, rings);
      }
    }
  }
}
