/** Permission bits: server/src/user/permissions.cpp and the `tds user perms` command,
    server/src/cli/user_commands/user_perms_command.cpp. */
module Permissions {
  import opened Options

  type Perms = bv8

  const SYMBOLS := "wcmdu"

  /** write, copy, move, download and upload are the bits 1 to 5. */
  function Bit(i: nat): Perms
    requires i < 5
  {
    if i == 0 then 0x02 else if i == 1 then 0x04 else if i == 2 then 0x08 else if i == 3 then 0x10 else 0x20
  }

  const ALL: Perms := 0x3E

  /** The bits that are no permission. */
  ghost function Others(p: Perms): Perms { p & !ALL }

  ghost predicate Has(p: Perms, i: nat)
    requires i < 5
  {
    p & Bit(i) != 0
  }

  function SymbolIndex(c: char): (i: nat)
    ensures i <= 5 && (i < 5 ==> SYMBOLS[i] == c) && (i == 5 ==> c !in SYMBOLS)
  {
    if c == 'w' then 0 else if c == 'c' then 1 else if c == 'm' then 2
    else if c == 'd' then 3 else if c == 'u' then 4 else 5
  }

  lemma OrBit(p: Perms, i: nat, j: nat)
    requires i < 5 && j < 5
    ensures Has(p | Bit(i), j) <==> Has(p, j) || i == j
  {
  }

  // ---------- text ----------

  function Symbols(p: Perms, n: nat): string
    requires n <= 5
  {
    if n == 0 then "" else Symbols(p, n - 1) + if p & Bit(n - 1) != 0 then [SYMBOLS[n - 1]] else ""
  }

  method ToString(p: Perms) returns (text: string)
    ensures text == Symbols(p, 5)
  {
    text := "";
    for i := 0 to 5
      invariant text == Symbols(p, i)
    {
      if p & Bit(i) != 0 {
        text := text + [SYMBOLS[i]];
      }
    }
  }

  function Parsed(text: string): Option<Perms> {
    if text == "" then Some(0)
    else
      var init, i := Parsed(text[..|text| - 1]), SymbolIndex(text[|text| - 1]);
      if init.Some? && i < 5 then Some(init.value | Bit(i)) else None
  }

  /** An unknown symbol is an error, wherever it stands. */
  method PermsFromString(text: string) returns (r: Option<Perms>)
    ensures r == Parsed(text)
  {
    var perms: Perms := 0;
    for k := 0 to |text|
      invariant Parsed(text[..k]) == Some(perms)
    {
      assert text[..k + 1][..k] == text[..k];
      var i := SymbolIndex(text[k]);
      if i < 5 {
        perms := perms | Bit(i);
      } else {
        BadSymbol(text, k);
        return None;
      }
    }
    assert text[..|text|] == text;
    r := Some(perms);
  }

  lemma {:induction false} BadSymbol(text: string, k: nat)
    requires k < |text| && SymbolIndex(text[k]) == 5
    ensures Parsed(text) == None
  {
    if k < |text| - 1 { BadSymbol(text[..|text| - 1], k); }
  }

  /** A text denotes exactly the permissions it names, in any order and with repeats. */
  lemma {:induction false} ParsedExact(text: string)
    ensures Parsed(text).Some? <==> forall c <- text :: c in SYMBOLS
    ensures Parsed(text).Some? ==>
      Others(Parsed(text).value) == 0 && forall i: nat | i < 5 :: Has(Parsed(text).value, i) <==> SYMBOLS[i] in text
  {
    hide Bit, Has;
    if text == "" {
      NoBits();
    } else {
      var init, c := text[..|text| - 1], text[|text| - 1];
      ParsedExact(init);
      assert text == init + [c];
      var k := SymbolIndex(c);
      if k < 5 && Parsed(init).Some? {
        var p := Parsed(init).value;
        BitInside(p, k);
        forall i: nat | i < 5 ensures Has(p | Bit(k), i) <==> SYMBOLS[i] in text {
          OrBit(p, k, i);
          SymbolsDiffer(i, k);
        }
      }
    }
  }

  lemma NoBits()
    ensures forall i: nat | i < 5 :: !Has(0, i)
  {
  }

  lemma SymbolsDiffer(i: nat, k: nat)
    requires i < 5 && k < 5
    ensures SYMBOLS[i] == SYMBOLS[k] <==> i == k
  {
  }

  lemma BitInside(p: Perms, k: nat)
    requires k < 5 && Others(p) == 0
    ensures Others(p | Bit(k)) == 0
  {
  }

  lemma {:induction false} TextNames(p: Perms, n: nat, i: nat)
    requires n <= 5 && i < 5
    ensures SYMBOLS[i] in Symbols(p, n) <==> i < n && Has(p, i)
    ensures forall c <- Symbols(p, n) :: c in SYMBOLS
  {
    if n > 0 {
      TextNames(p, n - 1, i);
      SymbolsDiffer(i, n - 1);
    }
  }

  lemma SameBits(p: Perms, q: Perms)
    requires Others(p) == 0 && Others(q) == 0 && forall i: nat | i < 5 :: Has(p, i) <==> Has(q, i)
    ensures p == q
  {
    assert Has(p, 0) <==> Has(q, 0);
    assert Has(p, 1) <==> Has(q, 1);
    assert Has(p, 2) <==> Has(q, 2);
    assert Has(p, 3) <==> Has(q, 3);
    assert Has(p, 4) <==> Has(q, 4);
  }

  /** Printing and parsing keeps exactly the five permissions, so it is the identity on
      every set of permissions. */
  lemma TextRoundTrip(p: Perms)
    ensures Parsed(Symbols(p, 5)) == Some(p & ALL)
  {
    hide Bit, Has, Symbols;
    var text := Symbols(p, 5);
    TextNames(p, 5, 0);
    ParsedExact(text);
    forall i: nat | i < 5 ensures Has(Parsed(text).value, i) <==> Has(p, i) {
      TextNames(p, 5, i);
    }
    Masked(p);
    SameBits(Parsed(text).value, p & ALL);
  }

  lemma Masked(p: Perms)
    ensures Others(p & ALL) == 0
    ensures forall i: nat | i < 5 :: Has(p & ALL, i) <==> Has(p, i)
  {
  }

  /** The bits of server/include/tds/user/permissions.hpp, and the order of the symbols. */
  lemma TextAndBits(p: Perms)
    ensures Symbols(p, 5) ==
      (if p & 0x02 != 0 then "w" else "") + (if p & 0x04 != 0 then "c" else "")
      + (if p & 0x08 != 0 then "m" else "") + (if p & 0x10 != 0 then "d" else "")
      + if p & 0x20 != 0 then "u" else ""
    ensures Parsed(Symbols(p, 5)) == Some(p & 0x3E)
  {
    TextRoundTrip(p);
    assert Symbols(p, 1) == if p & 0x02 != 0 then "w" else "";
    assert Symbols(p, 2) == Symbols(p, 1) + if p & 0x04 != 0 then "c" else "";
    assert Symbols(p, 3) == Symbols(p, 2) + if p & 0x08 != 0 then "m" else "";
    assert Symbols(p, 4) == Symbols(p, 3) + if p & 0x10 != 0 then "d" else "";
    assert Symbols(p, 5) == Symbols(p, 4) + if p & 0x20 != 0 then "u" else "";
  }

  // ---------- tds user perms ----------

  ghost predicate WellFormedFlag(flag: string) {
    flag == "" || ((flag[0] == '+' || flag[0] == '-') && forall c <- flag[1..] :: c in SYMBOLS)
  }

  /** Some flag with this sign names permission i. */
  ghost predicate Named(flags: seq<string>, sign: char, i: nat)
    requires i < 5
  {
    exists flag <- flags :: flag != "" && flag[0] == sign && SYMBOLS[i] in flag[1..]
  }

  /** The permissions are those that flags with this sign name. */
  ghost predicate Tracks(p: Perms, flags: seq<string>, sign: char) {
    Others(p) == 0 && forall i: nat | i < 5 :: Has(p, i) <==> Named(flags, sign, i)
  }

  class UserPermsCommand {
    var newPerms: Perms
    var takenPerms: Perms

    constructor ()
      ensures newPerms == 0 && takenPerms == 0
    {
      newPerms, takenPerms := 0, 0;
    }

    /** Stops at the first flag that is not one; empty flags are skipped. */
    method ParseArguments(flags: seq<string>) returns (ok: bool)
      requires newPerms == 0 && takenPerms == 0
      modifies this
      ensures ok <==> flags != [] && forall flag <- flags :: WellFormedFlag(flag)
      ensures ok ==> Tracks(newPerms, flags, '+') && Tracks(takenPerms, flags, '-')
    {
      hide Tracks, Parsed;
      if flags == [] { return false; }
      NothingTracked('+');
      NothingTracked('-');
      assert flags[..0] == [];
      for k := 0 to |flags|
        invariant forall flag <- flags[..k] :: WellFormedFlag(flag)
        invariant Tracks(newPerms, flags[..k], '+') && Tracks(takenPerms, flags[..k], '-')
      {
        var flag := flags[k];
        assert flags[..k + 1] == flags[..k] + [flag];
        assert flag in flags;
        if flag != "" {
          if flag[0] != '+' && flag[0] != '-' { return false; }
          var perms := PermsFromString(flag[1..]);
          ParsedExact(flag[1..]);
          if perms.None? { return false; }
          if flag[0] == '-' {
            TracksMore(takenPerms, flags[..k], flag, '-');
            TracksOther(newPerms, flags[..k], flag, '+');
            takenPerms := takenPerms | perms.value;
          } else {
            TracksMore(newPerms, flags[..k], flag, '+');
            TracksOther(takenPerms, flags[..k], flag, '-');
            newPerms := newPerms | perms.value;
          }
        } else {
          TracksOther(newPerms, flags[..k], flag, '+');
          TracksOther(takenPerms, flags[..k], flag, '-');
        }
      }
      assert flags[..|flags|] == flags;
      ok := true;
    }

    method Execute(ghost flags: seq<string>, perms: Perms) returns (r: Perms)
      requires Tracks(newPerms, flags, '+') && Tracks(takenPerms, flags, '-')
      ensures Updated(flags, perms, r)
    {
      hide Updated, Tracks;
      r := perms | newPerms;
      r := r & !takenPerms;
      Folded(flags, perms, newPerms, takenPerms);
    }
  }

  /** A permission ends up set exactly when no '-' flag names it and it was set before or
      a '+' flag names it; other bits stay. */
  ghost predicate Updated(flags: seq<string>, p: Perms, r: Perms) {
    && Others(r) == Others(p)
    && forall i: nat | i < 5 :: Has(r, i) <==> !Named(flags, '-', i) && (Has(p, i) || Named(flags, '+', i))
  }

  lemma Folded(flags: seq<string>, p: Perms, plus: Perms, minus: Perms)
    requires Tracks(plus, flags, '+') && Tracks(minus, flags, '-')
    ensures Updated(flags, p, (p | plus) & !minus)
  {
    hide Has, Bit, Named, Others;
    MaskOutside(p, plus, minus);
    forall i: nat | i < 5
      ensures Has((p | plus) & !minus, i) <==> !Named(flags, '-', i) && (Has(p, i) || Named(flags, '+', i))
    {
      MaskBit(p, plus, minus, i);
    }
  }

  lemma NothingTracked(sign: char)
    ensures Tracks(0, [], sign)
  {
    NoBits();
  }

  lemma NamedPush(flags: seq<string>, flag: string, sign: char, i: nat)
    requires i < 5
    ensures Named(flags + [flag], sign, i) <==>
      Named(flags, sign, i) || (flag != "" && flag[0] == sign && SYMBOLS[i] in flag[1..])
  {
  }

  lemma TracksOther(p: Perms, flags: seq<string>, flag: string, sign: char)
    requires Tracks(p, flags, sign) && (flag == "" || flag[0] != sign)
    ensures Tracks(p, flags + [flag], sign)
  {
    hide Has, Named;
    forall i: nat | i < 5 ensures Has(p, i) <==> Named(flags + [flag], sign, i) {
      NamedPush(flags, flag, sign, i);
    }
  }

  lemma TracksMore(p: Perms, flags: seq<string>, flag: string, sign: char)
    requires Tracks(p, flags, sign) && flag != "" && flag[0] == sign && Parsed(flag[1..]).Some?
    ensures Tracks(p | Parsed(flag[1..]).value, flags + [flag], sign)
  {
    hide Has, Named, Parsed, Bit;
    var q := Parsed(flag[1..]).value;
    ParsedExact(flag[1..]);
    OrMany(p, q);
    forall i: nat | i < 5 ensures Has(p | q, i) <==> Named(flags + [flag], sign, i) {
      NamedPush(flags, flag, sign, i);
    }
  }

  lemma OrMany(p: Perms, q: Perms)
    requires Others(p) == 0 && Others(q) == 0
    ensures Others(p | q) == 0
    ensures forall i: nat | i < 5 :: Has(p | q, i) <==> Has(p, i) || Has(q, i)
  {
  }

  lemma MaskBit(p: Perms, plus: Perms, minus: Perms, i: nat)
    requires i < 5
    ensures Has((p | plus) & !minus, i) <==> !Has(minus, i) && (Has(p, i) || Has(plus, i))
  {
  }

  lemma MaskOutside(p: Perms, plus: Perms, minus: Perms)
    requires Others(plus) == 0 && Others(minus) == 0
    ensures Others((p | plus) & !minus) == Others(p)
  {
  }
}
