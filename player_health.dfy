/** The two players' hearts (Pigeonton is player 1, Squeaks player 2) and the label that
    shows them as rows of "O". Heart counts are C# ints: damage subtracts with 32-bit
    wrap-around and is floored at 0; the setters clamp to 0..maxHearts. */
module PlayerHealthModel {
  import opened Unity

  // ---------------------------------------------------------------------------
  // The heart label
  // ---------------------------------------------------------------------------

  /** `s` concatenated `n` times, one copy per pass of a `+=` loop; nothing for n <= 0. */
  function Repeat(s: string, n: int): string
    decreases if n <= 0 then 0 else n
  {
    if n <= 0 then "" else Repeat(s, n - 1) + s
  }

  /** The characters String.Trim removes: the ASCII white space (tab, line feed, vertical
      tab, form feed, carriage return, space) and the Unicode spaces and separators. */
  predicate IsWhiteSpace(c: char) {
    ('\t' <= c <= '\r') || c == ' ' || c == '\U{85}' || c == '\U{A0}' || c == '\U{1680}' ||
    ('\U{2000}' <= c <= '\U{200A}') || c == '\U{2028}' || c == '\U{2029}' || c == '\U{202F}' ||
    c == '\U{205F}' || c == '\U{3000}'
  }

  function TrimStart(s: string): (r: string)
    ensures |r| <= |s| && r == s[|s| - |r|..]
    ensures r == [] || !IsWhiteSpace(r[0])
    ensures forall i :: 0 <= i < |s| - |r| ==> IsWhiteSpace(s[i])
    decreases |s|
  {
    if |s| > 0 && IsWhiteSpace(s[0]) then TrimStart(s[1..]) else s
  }

  function TrimEnd(s: string): (r: string)
    ensures |r| <= |s| && r == s[..|r|]
    ensures r == [] || !IsWhiteSpace(r[|r| - 1])
    ensures forall i :: |r| <= i < |s| ==> IsWhiteSpace(s[i])
    decreases |s|
  {
    if |s| > 0 && IsWhiteSpace(s[|s| - 1]) then TrimEnd(s[..|s| - 1]) else s
  }

  /** Only white space lies before index `i` and from index `j` on. */
  predicate WhiteSpaceOutside(s: string, i: int, j: int)
    requires 0 <= i <= j <= |s|
  {
    (forall k :: 0 <= k < i ==> IsWhiteSpace(s[k])) &&
    (forall k :: j <= k < |s| ==> IsWhiteSpace(s[k]))
  }

  /** String.Trim: white space removed from both ends. */
  function Trim(s: string): (r: string)
    ensures |r| <= |s|
    ensures r == [] || (!IsWhiteSpace(r[0]) && !IsWhiteSpace(r[|r| - 1]))
    // a slice of the input with only white space cut off either side
    ensures exists i, j :: 0 <= i <= j <= |s| && r == s[i..j] && WhiteSpaceOutside(s, i, j)
  {
    var t := TrimStart(s);
    var r := TrimEnd(t);
    TrimCutsOnlyWhiteSpace(s, t, r);
    r
  }

  /** The slice Trim keeps: a suffix `t` of `s` after white space, cut down to a prefix
      `r` before white space, is a slice of `s` with only white space outside it. */
  lemma TrimCutsOnlyWhiteSpace(s: string, t: string, r: string)
    requires |t| <= |s| && t == s[|s| - |t|..] && forall k :: 0 <= k < |s| - |t| ==> IsWhiteSpace(s[k])
    requires |r| <= |t| && r == t[..|r|] && forall k :: |r| <= k < |t| ==> IsWhiteSpace(t[k])
    ensures var i := |s| - |t|; r == s[i..i + |r|] && WhiteSpaceOutside(s, i, i + |r|)
  {
    var i := |s| - |t|;
    forall k | i + |r| <= k < |s|
      ensures IsWhiteSpace(s[k])
    {
      assert s[k] == t[k - i];
    }
  }

  /** The intended heart row: `n` letters O separated by single spaces, empty for n <= 0. */
  function HeartRow(n: int): string
    decreases if n <= 0 then 0 else n
  {
    if n <= 0 then "" else if n == 1 then "O" else HeartRow(n - 1) + " O"
  }

  /** The heart row has exactly the intended shape: 2n-1 characters, O at even positions
      and a space at odd ones. */
  lemma {:induction false} HeartRowShape(n: int)
    requires n >= 1
    ensures |HeartRow(n)| == 2 * n - 1
    ensures forall i :: 0 <= i < |HeartRow(n)| ==> HeartRow(n)[i] == (if i % 2 == 0 then 'O' else ' ')
    decreases n
  {
    if n > 1 {
      HeartRowShape(n - 1);
      var prev := HeartRow(n - 1);
      assert HeartRow(n) == prev + " O";
      forall i | 0 <= i < |HeartRow(n)|
        ensures HeartRow(n)[i] == (if i % 2 == 0 then 'O' else ' ')
      {
        if i < |prev| {
          assert HeartRow(n)[i] == prev[i];
        }
      }
    }
  }

  /** Repeating "O " leaves one trailing space after the heart row. */
  lemma {:induction false} RepeatIsRowPlusSpace(n: int)
    requires n >= 1
    ensures Repeat("O ", n) == HeartRow(n) + " "
    decreases n
  {
    if n > 1 {
      RepeatIsRowPlusSpace(n - 1);
      assert Repeat("O ", n) == HeartRow(n - 1) + " " + "O ";
      assert HeartRow(n) + " " == HeartRow(n - 1) + " O" + " ";
    }
  }

  /** A text with no white space at its ends, plus one trailing space, trims back to
      itself. */
  lemma TrimDropsTrailingSpace(row: string)
    requires |row| > 0 && !IsWhiteSpace(row[0]) && !IsWhiteSpace(row[|row| - 1])
    ensures Trim(row + " ") == row
  {
    var s := row + " ";
    assert s[0] == row[0];
    assert TrimStart(s) == s;
    assert s[..|s| - 1] == row;
    assert TrimEnd(s) == TrimEnd(row);
  }

  /** Trimming the repeated "O " gives the heart row. */
  lemma TrimmedRepeatIsHeartRow(n: int)
    ensures Trim(Repeat("O ", n)) == HeartRow(n)
  {
    if n >= 1 {
      RepeatIsRowPlusSpace(n);
      HeartRowShape(n);
      var row := HeartRow(n);
      assert row[0] == 'O';
      assert row[|row| - 1] == 'O' by {
        if n > 1 {
          assert row == HeartRow(n - 1) + " O";
        }
      }
      TrimDropsTrailingSpace(row);
    }
  }

  /** The label text for the two heart counts. */
  function HealthText(pigeonton: int, squeaks: int): string {
    "Pigeonton: " + HeartRow(pigeonton) + "\nSqueaks: " + HeartRow(squeaks)
  }

  // ---------------------------------------------------------------------------
  // The heart counts
  // ---------------------------------------------------------------------------

  datatype Hearts = Hearts(pigeonton: int32, squeaks: int32)

  /** A count after `amount` damage: the 32-bit difference, floored at 0. */
  function Damaged(hearts: int32, amount: int32): (r: int32)
    ensures r >= 0
    ensures MinInt32 <= hearts - amount <= MaxInt32 ==> r == MaxInt(0, hearts - amount)
    // damage never raises a non-negative count that does not wrap
    ensures 0 <= amount && 0 <= hearts ==> r <= hearts
  {
    var d := Sub32(hearts, amount);
    if d < 0 then 0 else d
  }

  /** TakeDamage(tag, amount): only "Player1" and "Player2" are recognised, and each
      touches only its own count. */
  function TakeDamageOn(h: Hearts, tag: string, amount: int32): (r: Hearts)
    ensures tag == "Player1" ==> r == h.(pigeonton := Damaged(h.pigeonton, amount))
    ensures tag == "Player2" ==> r == h.(squeaks := Damaged(h.squeaks, amount))
    ensures tag != "Player1" && tag != "Player2" ==> r == h
  {
    if tag == "Player1" then h.(pigeonton := Damaged(h.pigeonton, amount))
    else if tag == "Player2" then h.(squeaks := Damaged(h.squeaks, amount))
    else h
  }

  /** Damage with a non-negative amount never raises a count and leaves it non-negative. */
  lemma DamageLowers(h: Hearts, tag: string, amount: int32)
    requires 0 <= amount && 0 <= h.pigeonton && 0 <= h.squeaks
    ensures var r := TakeDamageOn(h, tag, amount);
            0 <= r.pigeonton <= h.pigeonton && 0 <= r.squeaks <= h.squeaks
  {
  }

  /** The value a setter stores. */
  function SetHeartsValue(value: int32, maxHearts: int32): (r: int32)
    ensures maxHearts >= 0 ==> 0 <= r <= maxHearts
    ensures value < 0 ==> r == 0
    ensures 0 <= value && maxHearts < value ==> r == maxHearts
    ensures 0 <= value <= maxHearts ==> r == value
  {
    ClampInt(value, 0, maxHearts)
  }

  /** Builds "O " repeated `n` times with a loop, as the label update does. */
  method BuildHearts(n: int32) returns (s: string)
    ensures s == Repeat("O ", n)
  {
    s := "";
    var i := 0;
    while i < n
      invariant 0 <= i <= MaxInt(0, n)
      invariant s == Repeat("O ", i)
      decreases n - i
    {
      s := s + "O ";
      i := i + 1;
    }
  }

  /** The label text as the label update builds it: two heart loops, each trimmed. */
  method BuildHealthText(pigeonton: int32, squeaks: int32) returns (txt: string)
    ensures txt == HealthText(pigeonton, squeaks)
  {
    var pHearts := BuildHearts(pigeonton);
    var sHearts := BuildHearts(squeaks);
    TrimmedRepeatIsHeartRow(pigeonton);
    TrimmedRepeatIsHeartRow(squeaks);
    txt := "Pigeonton: " + Trim(pHearts) + "\nSqueaks: " + Trim(sHearts);
  }

  class PlayerHealthManager {
    /** The assigned label, and the one a lookup by the name "healthText" finds. */
    var healthText: Label?
    const sceneLabel: Label?
    var maxHearts: int32
    var pigeontonHearts: int32
    var squeaksHearts: int32

    constructor (healthText: Label?, sceneLabel: Label?, maxHearts: int32)
      ensures this.healthText == healthText && this.sceneLabel == sceneLabel
      ensures this.maxHearts == maxHearts
      ensures pigeontonHearts == 0 && squeaksHearts == 0
    {
      this.healthText := healthText;
      this.sceneLabel := sceneLabel;
      this.maxHearts := maxHearts;
      pigeontonHearts := 0;
      squeaksHearts := 0;
    }

    function Counts(): Hearts
      reads this
    {
      Hearts(pigeontonHearts, squeaksHearts)
    }

    /** A label is at hand: assigned, or found by name. */
    predicate HasLabel()
      reads this
    {
      healthText != null || sceneLabel != null
    }

    /** The label shows the current counts. */
    predicate Shown()
      reads this, healthText
    {
      healthText != null && healthText.text == HealthText(pigeontonHearts, squeaksHearts)
    }

    /** Redraws the label, looking it up by name first if none is assigned. */
    method UpdateHealthUI()
      requires HasLabel()
      modifies this`healthText, healthText, sceneLabel
      ensures healthText == (if old(healthText) != null then old(healthText) else sceneLabel)
      ensures Shown()
      // only the label written to changes: a scene label that is not it is left alone
      ensures sceneLabel != null && sceneLabel != healthText ==> unchanged(sceneLabel)
    {
      var target := healthText;
      if target == null {
        target := sceneLabel;
        healthText := target;
      }
      var txt := BuildHealthText(pigeontonHearts, squeaksHearts);
      target.text := txt;
    }

    method Start()
      requires HasLabel()
      modifies this`healthText, this`pigeontonHearts, this`squeaksHearts, healthText, sceneLabel
      ensures Counts() == Hearts(maxHearts, maxHearts)
      ensures HasLabel() && Shown()
      ensures healthText == old(healthText) || healthText == sceneLabel
      ensures sceneLabel != null && sceneLabel != healthText ==> unchanged(sceneLabel)
    {
      pigeontonHearts := maxHearts;
      squeaksHearts := maxHearts;
      UpdateHealthUI();
    }

    /** Damage for a player tag redraws the label, so only then is a label needed; any
        other tag changes nothing. */
    method TakeDamage(playerTag: string, amount: int32)
      requires playerTag == "Player1" || playerTag == "Player2" ==> HasLabel()
      modifies this`healthText, this`pigeontonHearts, this`squeaksHearts, healthText, sceneLabel
      ensures Counts() == TakeDamageOn(old(Counts()), playerTag, amount)
      ensures old(HasLabel()) ==> HasLabel()
      ensures healthText == old(healthText) || healthText == sceneLabel
      ensures sceneLabel != null && sceneLabel != healthText ==> unchanged(sceneLabel)
      ensures playerTag == "Player1" || playerTag == "Player2" ==> Shown()
      ensures playerTag != "Player1" && playerTag != "Player2" ==>
                healthText == old(healthText) && (healthText != null ==> unchanged(healthText)) &&
                (sceneLabel != null ==> unchanged(sceneLabel))
    {
      if playerTag == "Player1" {
        pigeontonHearts := Sub32(pigeontonHearts, amount);
        if pigeontonHearts < 0 {
          pigeontonHearts := 0;
        }
        UpdateHealthUI();
      } else if playerTag == "Player2" {
        squeaksHearts := Sub32(squeaksHearts, amount);
        if squeaksHearts < 0 {
          squeaksHearts := 0;
        }
        UpdateHealthUI();
      }
    }

    method DamagePlayer1(amount: int32)
      requires HasLabel()
      modifies this`healthText, this`pigeontonHearts, this`squeaksHearts, healthText, sceneLabel
      ensures Counts() == TakeDamageOn(old(Counts()), "Player1", amount)
      ensures HasLabel() && Shown()
      ensures healthText == old(healthText) || healthText == sceneLabel
      ensures sceneLabel != null && sceneLabel != healthText ==> unchanged(sceneLabel)
    {
      TakeDamage("Player1", amount);
    }

    method DamagePlayer2(amount: int32)
      requires HasLabel()
      modifies this`healthText, this`pigeontonHearts, this`squeaksHearts, healthText, sceneLabel
      ensures Counts() == TakeDamageOn(old(Counts()), "Player2", amount)
      ensures HasLabel() && Shown()
      ensures healthText == old(healthText) || healthText == sceneLabel
      ensures sceneLabel != null && sceneLabel != healthText ==> unchanged(sceneLabel)
    {
      TakeDamage("Player2", amount);
    }

    /** Pigeonton's count. */
    function GetPlayer1Hearts(): (r: int32)
      reads this
      ensures r == Counts().pigeonton
    {
      pigeontonHearts
    }

    /** Squeaks's count. */
    function GetPlayer2Hearts(): (r: int32)
      reads this
      ensures r == Counts().squeaks
    {
      squeaksHearts
    }

    method SetPlayer1Hearts(value: int32)
      requires HasLabel()
      modifies this`healthText, this`pigeontonHearts, healthText, sceneLabel
      ensures Counts() == old(Counts()).(pigeonton := SetHeartsValue(value, maxHearts))
      // reading back gives the clamped value, and the other player's count is kept
      ensures GetPlayer1Hearts() == SetHeartsValue(value, maxHearts)
      ensures GetPlayer2Hearts() == old(GetPlayer2Hearts())
      ensures HasLabel() && Shown()
      ensures healthText == old(healthText) || healthText == sceneLabel
      ensures sceneLabel != null && sceneLabel != healthText ==> unchanged(sceneLabel)
    {
      pigeontonHearts := ClampInt(value, 0, maxHearts);
      UpdateHealthUI();
    }

    method SetPlayer2Hearts(value: int32)
      requires HasLabel()
      modifies this`healthText, this`squeaksHearts, healthText, sceneLabel
      ensures Counts() == old(Counts()).(squeaks := SetHeartsValue(value, maxHearts))
      // reading back gives the clamped value, and the other player's count is kept
      ensures GetPlayer2Hearts() == SetHeartsValue(value, maxHearts)
      ensures GetPlayer1Hearts() == old(GetPlayer1Hearts())
      ensures HasLabel() && Shown()
      ensures healthText == old(healthText) || healthText == sceneLabel
      ensures sceneLabel != null && sceneLabel != healthText ==> unchanged(sceneLabel)
    {
      squeaksHearts := ClampInt(value, 0, maxHearts);
      UpdateHealthUI();
    }
  }
}
