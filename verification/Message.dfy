/**
 Receipt messages: templates with {{placeholders}}, which of them are accepted, what rendering puts in
 their place, and rupiah amounts with dots between groups of three digits.
 */
module Message {
  import opened Outcome
  import opened Decimal

  // ------------------------------------------------------------------ templates

  /** One character of literal text, or one placeholder. */
  datatype Part = Text(c: char) | Hole(key: string)

  predicate IsBrace(c: char) { c == '{' || c == '}' }

  /** What may stand between the braces of a placeholder. */
  predicate IsKey(k: string) { k != "" && forall i :: 0 <= i < |k| ==> !IsBrace(k[i]) }

  /** Length of the longest brace-free prefix. */
  function Run(s: string): (n: nat)
    ensures n <= |s| && (forall i :: 0 <= i < n ==> !IsBrace(s[i])) && (n < |s| ==> IsBrace(s[n]))
  {
    if s == "" || IsBrace(s[0]) then 0 else 1 + Run(s[1..])
  }

  /** The placeholder that starts a text, if one does: the pattern {{ key }} matched at the first character. */
  function Leading(s: string): (k: Option<string>)
    ensures k.Some? ==> IsKey(k.value) && Spelled(Hole(k.value)) <= s
  {
    if |s| < 2 || s[0] != '{' || s[1] != '{' then None
    else
      var n := Run(s[2..]);
      if n == 0 || |s| < n + 4 || s[n + 2] != '}' || s[n + 3] != '}' then None
      else
        assert "{{" + s[2..n + 2] + "}}" == s[..n + 4];
        Some(s[2..n + 2])
  }

  function Spelled(p: Part): string {
    match p
    case Text(c) => [c]
    case Hole(k) => "{{" + k + "}}"
  }

  /** Leftmost, non-overlapping matches, everything between them literal. */
  function Scan(s: string): seq<Part>
    decreases |s|
  {
    if s == "" then []
    else
      match Leading(s)
      case Some(k) => [Hole(k)] + Scan(s[|k| + 4..])
      case None => [Text(s[0])] + Scan(s[1..])
  }

  function Spell(parts: seq<Part>): string {
    if parts == [] then "" else Spelled(parts[0]) + Spell(parts[1..])
  }

  /** The text left when every placeholder is removed. */
  function Literals(parts: seq<Part>): string {
    if parts == [] then ""
    else (if parts[0].Text? then [parts[0].c] else "") + Literals(parts[1..])
  }

  predicate Malformed(s: string) { exists i :: 0 <= i < |s| - 1 && IsBrace(s[i]) && s[i + 1] == s[i] }

  const PLACEHOLDERS: set<string> :=
    {"customer_name", "invoice_number", "order_total", "paid_amount", "outstanding_amount", "due_date", "order_status"}

  predicate Supported(parts: seq<Part>) {
    forall i :: 0 <= i < |parts| && parts[i].Hole? ==> parts[i].key in PLACEHOLDERS
  }

  predicate Accepts(s: string) { Supported(Scan(s)) && !Malformed(Literals(Scan(s))) }

  type Values = map<string, string>

  function Filled(p: Part, values: Values): string {
    match p
    case Text(c) => [c]
    case Hole(k) => if k in values then values[k] else ""
  }

  function Fill(parts: seq<Part>, values: Values): string {
    if parts == [] then "" else Filled(parts[0], values) + Fill(parts[1..], values)
  }

  function Render(s: string, values: Values): string { Fill(Scan(s), values) }

  /** Literals and supported placeholders with no doubled brace left over once the placeholders are taken out. */
  ghost predicate Clean(parts: seq<Part>) {
    && Supported(parts) && !Malformed(Literals(parts))
    && forall i :: 0 <= i < |parts| && parts[i].Hole? ==> IsKey(parts[i].key)
  }

  lemma {:induction false} ScanSpells(s: string)
    ensures Spell(Scan(s)) == s
    ensures forall i :: 0 <= i < |Scan(s)| && Scan(s)[i].Hole? ==> IsKey(Scan(s)[i].key)
    decreases |s|
  {
    if s != "" {
      match Leading(s)
      case Some(k) =>
        ScanSpells(s[|k| + 4..]);
        assert s == Spelled(Hole(k)) + s[|k| + 4..];
      case None =>
        ScanSpells(s[1..]);
        assert s == [s[0]] + s[1..];
    }
  }

  lemma MalformedGrows(before: string, s: string)
    ensures Malformed(s) ==> Malformed(before + s)
  {
    if Malformed(s) {
      var i :| 0 <= i < |s| - 1 && IsBrace(s[i]) && s[i + 1] == s[i];
      var whole, k := before + s, |before| + i;
      assert IsBrace(whole[k]) && whole[k + 1] == whole[k];
    }
  }

  lemma DoubledStart(s: string)
    ensures |s| >= 2 && IsBrace(s[0]) && s[1] == s[0] ==> Malformed(s)
  {}

  lemma CleanTail(parts: seq<Part>)
    requires parts != [] && Clean(parts)
    ensures Clean(parts[1..])
  {
    MalformedGrows(if parts[0].Text? then [parts[0].c] else "", Literals(parts[1..]));
  }

  lemma LeadingHole(k: string, rest: string)
    requires IsKey(k)
    ensures Leading(Spelled(Hole(k)) + rest) == Some(k)
    ensures (Spelled(Hole(k)) + rest)[|k| + 4..] == rest
  {
    var s := Spelled(Hole(k)) + rest;
    var n := Run(s[2..]);
    assert forall i :: 0 <= i < |k| ==> s[2..][i] == k[i];
    assert s[2..][|k|] == '}';
    assert s[2..|k| + 2] == k;
  }

  /** No placeholder starts at a literal character of a clean list. */
  lemma NoLeadingText(parts: seq<Part>)
    requires parts != [] && parts[0].Text? && Clean(parts)
    ensures Leading(Spell(parts)).None?
  {
    var s, rest := Spell(parts), parts[1..];
    if parts[0].c == '{' && rest != [] {
      if rest[0].Text? {
        DoubledStart(Literals(parts));
        assert Literals(parts)[1] == rest[0].c == s[1];
      } else {
        assert s[2] == '{';
      }
    }
  }

  lemma ScanHole(k: string, rest: string)
    requires IsKey(k)
    ensures Scan(Spelled(Hole(k)) + rest) == [Hole(k)] + Scan(rest)
  {
    LeadingHole(k, rest);
  }

  lemma ScanText(c: char, rest: string)
    requires Leading([c] + rest).None?
    ensures Scan([c] + rest) == [Part.Text(c)] + Scan(rest)
  {
    assert ([c] + rest)[1..] == rest;
  }

  /** A clean list is read back from its spelling, so it is the only clean reading of that text. */
  lemma {:induction false} SpellScans(parts: seq<Part>)
    requires Clean(parts)
    ensures Scan(Spell(parts)) == parts
  {
    if parts != [] {
      CleanTail(parts);
      SpellScans(parts[1..]);
      match parts[0]
      case Hole(k) => ScanHole(k, Spell(parts[1..]));
      case Text(c) =>
        NoLeadingText(parts);
        ScanText(c, Spell(parts[1..]));
      assert parts == [parts[0]] + parts[1..];
    }
  }

  /** A template is accepted exactly when it spells a clean list of literals and supported placeholders. */
  lemma AcceptsExactlyClean(s: string)
    ensures Accepts(s) <==> exists parts :: Clean(parts) && Spell(parts) == s
  {
    ScanSpells(s);
    if Accepts(s) {
      assert Clean(Scan(s)) && Spell(Scan(s)) == s;
    }
    if parts :| Clean(parts) && Spell(parts) == s {
      SpellScans(parts);
    }
  }

  /** Rendering replaces each placeholder in order and never looks at the values again. */
  lemma RenderSubstitutes(parts: seq<Part>, values: Values)
    requires Clean(parts)
    ensures Accepts(Spell(parts)) && Render(Spell(parts), values) == Fill(parts, values)
  {
    SpellScans(parts);
  }

  lemma Associate(a: string, b: string, c: string)
    ensures a + (b + c) == (a + b) + c
  {}

  lemma {:induction false} FillJoined(a: seq<Part>, b: seq<Part>, values: Values)
    ensures Fill(a + b, values) == Fill(a, values) + Fill(b, values)
  {
    if a == [] {
      assert a + b == b;
    } else {
      FillJoined(a[1..], b, values);
      assert (a + b)[1..] == a[1..] + b && (a + b)[0] == a[0];
      Associate(Filled(a[0], values), Fill(a[1..], values), Fill(b, values));
    }
  }

  /** In any accepted template a value lands whole between the renderings of what stands around it. */
  lemma ValueLandsWhole(before: seq<Part>, key: string, after: seq<Part>, values: Values)
    requires Clean(before + [Hole(key)] + after)
    ensures Render(Spell(before + [Hole(key)] + after), values) ==
            Fill(before, values) + (if key in values then values[key] else "") + Fill(after, values)
  {
    RenderSubstitutes(before + [Hole(key)] + after, values);
    FillJoined(before + [Hole(key)], after, values);
    FillJoined(before, [Hole(key)], values);
    assert [Hole(key)][1..] == [];
    assert Fill([Hole(key)], values) == if key in values then values[key] else "";
  }

  /** Literal text is rendered, and left over without its placeholders, as it stands. */
  lemma {:induction false} LiteralsAreKept(parts: seq<Part>, values: Values)
    requires forall i :: 0 <= i < |parts| ==> parts[i].Text?
    ensures Fill(parts, values) == Spell(parts) == Literals(parts)
  {
    if parts != [] {
      LiteralsAreKept(parts[1..], values);
    }
  }

  /** A placeholder leaves nothing over. */
  lemma {:induction false} PlaceholdersLeaveNothing(before: seq<Part>, key: string, after: seq<Part>)
    ensures Literals(before + [Hole(key)] + after) == Literals(before) + Literals(after)
  {
    var all := before + [Hole(key)] + after;
    if before == [] {
      assert all[1..] == after;
    } else {
      PlaceholdersLeaveNothing(before[1..], key, after);
      assert all[0] == before[0] && all[1..] == before[1..] + [Hole(key)] + after;
      Associate(if before[0].Text? then [before[0].c] else "", Literals(before[1..]), Literals(after));
    }
  }

  // ------------------------------------------------------------------ amounts

  /** strconv.FormatInt */
  function Signed(n: int): string { if n < 0 then "-" + Decimal.Text(-n) else Decimal.Text(n) }

  /** A dot before every third character from the right. */
  function Grouped(s: string): string {
    if |s| <= 3 then s else Grouped(s[..|s| - 3]) + "." + s[|s| - 3..]
  }

  method Rupiah(n: int) returns (text: string)
    ensures text == "Rp " + Grouped(Signed(n))
  {
    ghost var numeral := Signed(n);
    var s := Signed(n);
    var i := |s| - 3;
    assert numeral[..|numeral|] == numeral;
    while i > 0
      invariant i <= |numeral| - 3 && (i == |numeral| - 3 || i > -3)
      invariant i + 3 <= |s| && s[..i + 3] == numeral[..i + 3]
      invariant Grouped(numeral) == Grouped(numeral[..i + 3]) + s[i + 3..]
    {
      GroupStep(numeral, s, i);
      s := s[..i] + "." + s[i..];
      i := i - 3;
    }
    assert s == s[..i + 3] + s[i + 3..];
    return "Rp " + s;
  }

  /** One more dot moves three characters from the part still to group to the part already grouped. */
  lemma GroupStep(numeral: string, s: string, i: nat)
    requires 0 < i && i + 3 <= |numeral| && i + 3 <= |s| && s[..i + 3] == numeral[..i + 3]
    ensures var next := s[..i] + "." + s[i..];
            next[..i] == numeral[..i]
            && Grouped(numeral[..i + 3]) + s[i + 3..] == Grouped(numeral[..i]) + next[i..]
  {
    var head, group, tail := numeral[..i + 3], numeral[i..i + 3], s[i + 3..];
    assert head[..i] == numeral[..i] && head[i..] == group;
    assert s[..i] == s[..i + 3][..i];
    assert s[i..] == group + tail by { assert s[i..] == s[..i + 3][i..] + tail; }
    var next := s[..i] + "." + s[i..];
    assert next[i..] == "." + (group + tail);
    assert Grouped(numeral[..i]) + "." + group + tail == Grouped(numeral[..i]) + ("." + (group + tail));
  }

  function WithoutDots(s: string): string {
    if s == "" then "" else WithoutDots(s[..|s| - 1]) + if s[|s| - 1] == '.' then "" else [s[|s| - 1]]
  }

  lemma {:induction false} WithoutDotsJoined(a: string, b: string)
    ensures WithoutDots(a + b) == WithoutDots(a) + WithoutDots(b)
  {
    if b == "" {
      assert a + b == a;
    } else {
      WithoutDotsJoined(a, b[..|b| - 1]);
      assert (a + b)[..|a + b| - 1] == a + b[..|b| - 1];
    }
  }

  lemma {:induction false} NoDotsInDigits(s: string)
    requires AllDigits(s)
    ensures WithoutDots(s) == s
  {
    if s != "" {
      NoDotsInDigits(s[..|s| - 1]);
      assert s == s[..|s| - 1] + [s[|s| - 1]];
    }
  }

  /** Dots stand exactly before every third digit from the right, and nowhere else. */
  ghost predicate DotsByThrees(g: string) {
    |g| % 4 != 0 && forall j :: 0 <= j < |g| ==> if (|g| - j) % 4 == 0 then g[j] == '.' else IsDigit(g[j])
  }

  lemma GroupJoins(head: string, tail: string)
    requires AllDigits(tail)
    ensures WithoutDots(head + "." + tail) == WithoutDots(head) + tail
  {
    NoDotsInDigits(tail);
    WithoutDotsJoined(head + ".", tail);
    WithoutDotsJoined(head, ".");
    assert "."[..0] == "" && WithoutDots(".") == "";
  }

  lemma {:induction false} GroupsKeepDigits(s: string)
    requires AllDigits(s)
    ensures WithoutDots(Grouped(s)) == s
  {
    if |s| <= 3 {
      NoDotsInDigits(s);
    } else {
      GroupsKeepDigits(s[..|s| - 3]);
      GroupJoins(Grouped(s[..|s| - 3]), s[|s| - 3..]);
      assert s == s[..|s| - 3] + s[|s| - 3..];
    }
  }

  lemma {:induction false} GroupsByThree(s: string)
    requires AllDigits(s) && s != ""
    ensures DotsByThrees(Grouped(s))
  {
    if |s| > 3 {
      GroupsByThree(s[..|s| - 3]);
      TailByThrees(Grouped(s[..|s| - 3]), s[|s| - 3..]);
    }
  }

  lemma TailByThrees(g: string, tail: string)
    requires DotsByThrees(g) && AllDigits(tail) && |tail| == 3
    ensures DotsByThrees(g + "." + tail)
  {
    var w := g + "." + tail;
    forall j | 0 <= j < |w| ensures if (|w| - j) % 4 == 0 then w[j] == '.' else IsDigit(w[j]) {
      if j < |g| {
        assert w[j] == g[j] && |w| - j == (|g| - j) + 4;
      }
    }
  }

  /** For a nonnegative amount: the dots removed, the decimal is left, in groups of exactly three after the first. */
  lemma RupiahGroups(n: nat)
    ensures WithoutDots(Grouped(Signed(n))) == Decimal.Text(n) && DotsByThrees(Grouped(Signed(n)))
  {
    TextDenotes(n);
    GroupsKeepDigits(Decimal.Text(n));
    GroupsByThree(Decimal.Text(n));
  }

  lemma GroupedJoins(head: string, tail: string)
    requires head != "" && |tail| == 3
    ensures Grouped(head + tail) == Grouped(head) + ("." + tail)
  {
    var t := head + tail;
    assert t[..|t| - 3] == head && t[|t| - 3..] == tail;
    Associate(Grouped(head), ".", tail);
  }

  lemma LongerSign(head: string, tail: string)
    requires head != "" && |tail| == 3
    ensures Grouped("-" + (head + tail)) == "-" + Grouped(head + tail) <==> Grouped("-" + head) == "-" + Grouped(head)
  {
    GroupedJoins(head, tail);
    GroupedJoins("-" + head, tail);
    Associate("-", head, tail);
    Associate("-", Grouped(head), "." + tail);
    SameEnds(Grouped("-" + head), "-" + Grouped(head), "." + tail);
  }

  lemma ShortSign(t: string)
    requires 1 <= |t| <= 3
    ensures Grouped("-" + t) == "-" + Grouped(t) <==> |t| != 3
  {
    if |t| == 3 {
      var s := "-" + t;
      assert s[..1] == "-" && s[1..] == t;
      assert |Grouped(s)| == 5;
    }
  }

  /** A sign is grouped like a digit, so a negative amount is grouped right unless its digits fill whole groups. */
  lemma {:induction false} SignGroupsExactly(t: string)
    requires t != ""
    ensures Grouped("-" + t) == "-" + Grouped(t) <==> |t| % 3 != 0
  {
    if |t| > 3 {
      SignGroupsExactly(t[..|t| - 3]);
      LongerSign(t[..|t| - 3], t[|t| - 3..]);
      assert t[..|t| - 3] + t[|t| - 3..] == t;
    } else {
      ShortSign(t);
    }
  }

  lemma SameEnds(a: string, b: string, tail: string)
    ensures a + tail == b + tail <==> a == b
  {
    if a + tail == b + tail {
      assert |a| == |b|;
      assert a == (a + tail)[..|a|] && b == (b + tail)[..|b|];
    }
  }

  lemma NegativeGroupsExactly(n: int)
    requires n < 0
    ensures Grouped(Signed(n)) == "-" + Grouped(Decimal.Text(-n)) <==> |Decimal.Text(-n)| % 3 != 0
  {
    TextDenotes(-n);
    SignGroupsExactly(Decimal.Text(-n));
  }
}
