/// The information-set key: the player's dealt card in decimal, then one
/// character per decision ('b' for BET, 'p' for anything else).
module InfoState {
  import opened KuhnRules

  function Digit(d: int): char
    requires 0 <= d < 10
  {
    "0123456789"[d]
  }

  predicate IsDigit(c: char)
  {
    '0' <= c <= '9'
  }

  /// Python's `str` on a non-negative integer.
  function NatToString(k: nat): string
    decreases k
  {
    if k < 10 then [Digit(k)] else NatToString(k / 10) + [Digit(k % 10)]
  }

  /// Python's `str` on an integer.
  function IntToString(k: int): string
  {
    if k < 0 then "-" + NatToString(-k) else NatToString(k)
  }

  function BetChar(a: int): char
  {
    if a == BET then 'b' else 'p'
  }

  function BetString(actions: seq<int>): string
  {
    seq(|actions|, i requires 0 <= i < |actions| => BetChar(actions[i]))
  }

  /// A key under construction grows by one bet character per action.
  lemma BetStringExtend(card: string, h: seq<int>, lo: int, hi: int)
    requires 0 <= lo <= hi < |h|
    ensures card + BetString(h[lo..hi]) + [BetChar(h[hi])] == card + BetString(h[lo..hi + 1])
  {
    assert h[lo..hi + 1] == h[lo..hi] + [h[hi]];
    assert BetString(h[lo..hi + 1]) == BetString(h[lo..hi]) + [BetChar(h[hi])];
  }

  /// `information_state_string(player)`: "Chance" for a negative player;
  /// otherwise the entry of the history at the player's index (the card dealt
  /// to it) when there is one, then the public decisions.
  function Key(n: nat, history: seq<int>, player: int): (r: string)
    ensures player < 0 ==> r == "Chance"
  {
    if player < 0 then "Chance"
    else (if |history| > player then IntToString(history[player]) else "") + BetString(Decisions(n, history))
  }

  /// A player's key ends with one character per decision after the deals,
  /// and what comes before them is the player's card in decimal, or nothing
  /// while the player has no card.
  lemma KeyParts(n: nat, history: seq<int>, player: nat)
    ensures var r, bets := Key(n, history, player), BetString(Decisions(n, history));
      && |bets| <= |r| && r[|r| - |bets|..] == bets
      && (|history| > player ==> r[..|r| - |bets|] == IntToString(history[player]))
      && (|history| <= player ==> r == bets)
  {
    var bets := BetString(Decisions(n, history));
    var card := if |history| > player then IntToString(history[player]) else "";
    assert Key(n, history, player) == card + bets;
  }

  lemma {:induction false} NatToStringDigits(k: nat)
    ensures |NatToString(k)| >= 1
    ensures forall i :: 0 <= i < |NatToString(k)| ==> IsDigit(NatToString(k)[i])
    ensures k >= 10 ==> |NatToString(k)| >= 2
    decreases k
  {
    if k >= 10 {
      NatToStringDigits(k / 10);
    }
  }

  lemma DigitInjective(a: int, b: int)
    requires 0 <= a < 10 && 0 <= b < 10
    requires Digit(a) == Digit(b)
    ensures a == b
  {
  }

  /// Decimal notation is one-to-one.
  lemma {:induction false} NatToStringInjective(a: nat, b: nat)
    requires NatToString(a) == NatToString(b)
    ensures a == b
    decreases a
  {
    NatToStringDigits(a);
    NatToStringDigits(b);
    var s := NatToString(a);
    if a < 10 {
      assert b < 10;
      DigitInjective(a, b);
    } else {
      assert b >= 10;
      assert s[|s| - 1] == Digit(a % 10) == Digit(b % 10);
      DigitInjective(a % 10, b % 10);
      assert NatToString(a / 10) == s[..|s| - 1] == NatToString(b / 10);
      NatToStringInjective(a / 10, b / 10);
    }
  }

  /// The number of leading decimal digits of a string.
  function LeadingDigits(s: string): nat
  {
    if s != [] && IsDigit(s[0]) then 1 + LeadingDigits(s[1..]) else 0
  }

  lemma {:induction false} LeadingDigitsOfConcat(d: string, b: string)
    requires forall i :: 0 <= i < |d| ==> IsDigit(d[i])
    requires b == [] || !IsDigit(b[0])
    ensures LeadingDigits(d + b) == |d|
  {
    if d != [] {
      assert (d + b)[1..] == d[1..] + b;
      LeadingDigitsOfConcat(d[1..], b);
    }
  }

  /// A string of decimal digits followed by a bet string splits in one way only.
  lemma SplitDigitsAndBets(d1: string, b1: string, d2: string, b2: string)
    requires forall i :: 0 <= i < |d1| ==> IsDigit(d1[i])
    requires forall i :: 0 <= i < |d2| ==> IsDigit(d2[i])
    requires b1 == [] || !IsDigit(b1[0])
    requires b2 == [] || !IsDigit(b2[0])
    requires d1 + b1 == d2 + b2
    ensures d1 == d2 && b1 == b2
  {
    LeadingDigitsOfConcat(d1, b1);
    LeadingDigitsOfConcat(d2, b2);
    assert d1 == (d1 + b1)[..|d1|] == (d2 + b2)[..|d2|] == d2;
    assert b1 == (d1 + b1)[|d1|..] == (d2 + b2)[|d2|..] == b2;
  }

  /// The key identifies the player's card and the public betting sequence: two
  /// histories with the same key for a player give that player the same card
  /// (or none) and the same sequence of BET / non-BET decisions, and conversely.
  lemma KeyIdentifiesInformation(n: nat, h1: seq<int>, h2: seq<int>, player: nat)
    requires forall i :: 0 <= i < |h1| && i < n ==> h1[i] >= 0
    requires forall i :: 0 <= i < |h2| && i < n ==> h2[i] >= 0
    requires player < n
    ensures Key(n, h1, player) == Key(n, h2, player) <==>
              && (|h1| > player <==> |h2| > player)
              && (|h1| > player ==> h1[player] == h2[player])
              && BetString(Decisions(n, h1)) == BetString(Decisions(n, h2))
  {
    var c1 := if |h1| > player then IntToString(h1[player]) else "";
    var c2 := if |h2| > player then IntToString(h2[player]) else "";
    var b1, b2 := BetString(Decisions(n, h1)), BetString(Decisions(n, h2));
    if |h1| > player { NatToStringDigits(h1[player]); }
    if |h2| > player { NatToStringDigits(h2[player]); }
    if Key(n, h1, player) == Key(n, h2, player) {
      assert c1 + b1 == c2 + b2;
      SplitDigitsAndBets(c1, b1, c2, b2);
      if |h1| > player && |h2| > player {
        NatToStringInjective(h1[player], h2[player]);
      }
    }
  }

  /// Equal bet strings mean equal BET positions.
  lemma BetStringIdentifiesBets(a1: seq<int>, a2: seq<int>)
    ensures BetString(a1) == BetString(a2) <==>
              |a1| == |a2| && forall i :: 0 <= i < |a1| ==> (a1[i] == BET <==> a2[i] == BET)
  {
    if BetString(a1) == BetString(a2) {
      forall i | 0 <= i < |a1|
        ensures a1[i] == BET <==> a2[i] == BET
      {
        assert BetString(a1)[i] == BetString(a2)[i];
      }
    }
  }
}
