/** The cell formatters of the pool events table: shortened addresses and hashes, the
    event type's badge variant and its human-readable label. */
module EventsTable {
  import opened Types
  import opened ChartCommon
  import opened Text

  /** `truncateAddress`: a string of at most 12 characters is shown whole; a longer one is
      cut to its first 6 and last 4 characters around "...". */
  function TruncateAddress(a: string): (r: string)
    ensures |a| <= 12 ==> r == a
    ensures |a| > 12 ==> |r| == 13 && r[..6] == a[..6] && r[6..9] == "..." && r[9..] == a[|a| - 4..]
    ensures |r| <= 13
  {
    if |a| <= 12 then a else a[..6] + "..." + a[|a| - 4..]
  }

  /** Shortening a shortened address changes nothing. */
  lemma TruncateIdempotent(a: string)
    ensures TruncateAddress(TruncateAddress(a)) == TruncateAddress(a)
  {
    var r := TruncateAddress(a);
    if |a| > 12 {
      assert r == r[..6] + r[6..9] + r[9..];
      assert r[|r| - 4..] == r[9..];
    }
  }

  /** An address in the fixtures' shortened form is already a fixed point. */
  lemma FixtureAddressUnchanged()
    ensures TruncateAddress("0xabc1...def1") == "0xabc1...def1"
  {
    TruncateIdempotent("0xabc1234567890def1");
    assert TruncateAddress("0xabc1234567890def1") == "0xabc1...def1";
  }

  /** `getEventTypeVariant`, on the type's wire spelling. */
  function VariantOf(eventType: string): (v: BadgeVariant)
    ensures v == Destructive <==> eventType == "default"
    ensures v == Secondary <==> eventType == "withdrawal"
    ensures v == DefaultVariant <==> eventType == "deposit" || eventType == "loan_repaid"
    ensures v == Outline <==> eventType !in {"default", "withdrawal", "deposit", "loan_repaid"}
  {
    match eventType
    case "deposit" => DefaultVariant
    case "withdrawal" => Secondary
    case "loan_originated" => Outline
    case "loan_repaid" => DefaultVariant
    case "interest_payment" => Outline
    case "default" => Destructive
    case _ => Outline
  }

  /** Of the six event types, only defaults are destructive, only withdrawals secondary,
      and originations and interest payments are outlined. */
  lemma VariantsOfEventTypes(t: EventType)
    ensures VariantOf(EventTypeName(t)) == Destructive <==> t == DefaultEvent
    ensures VariantOf(EventTypeName(t)) == Secondary <==> t == Withdrawal
    ensures VariantOf(EventTypeName(t)) == DefaultVariant <==> t == Deposit || t == LoanRepaidEvent
    ensures VariantOf(EventTypeName(t)) == Outline <==> t == LoanOriginated || t == InterestPayment
  {
  }

  /** `\w` of a regular expression. */
  predicate IsWordChar(c: char)
  {
    'a' <= c <= 'z' || 'A' <= c <= 'Z' || '0' <= c <= '9' || c == '_'
  }

  /** `replace(/_/g, " ")`. */
  function Spaced(s: string): (r: string)
    ensures |r| == |s|
    ensures forall i :: 0 <= i < |s| ==> (r[i] == ' ' <==> s[i] == '_' || s[i] == ' ')
    ensures forall i :: 0 <= i < |s| && s[i] != '_' ==> r[i] == s[i]
  {
    seq(|s|, (i: int) requires 0 <= i < |s| => if s[i] == '_' then ' ' else s[i])
  }

  /** `replace(/\b\w/g, (c) => c.toUpperCase())`: a word character that starts a word
      is upper-cased. */
  function CapitalizeWords(s: string): (r: string)
    ensures |r| == |s|
  {
    seq(|s|, (i: int) requires 0 <= i < |s| =>
      if IsWordChar(s[i]) && (i == 0 || !IsWordChar(s[i - 1])) then Upper(s[i]) else s[i])
  }

  /** Whether character `i` of a raw type name starts a word of the label. */
  predicate StartsWord(s: string, i: int)
    requires 0 <= i < |s|
  {
    i == 0 || s[i - 1] == '_' || !IsWordChar(s[i - 1])
  }

  /** `formatEventType`: every "_" becomes a space and every character that starts a
      word is upper-cased; the label has the length of the name. */
  function FormatEventType(s: string): (r: string)
    ensures |r| == |s|
    ensures forall i :: 0 <= i < |s| ==>
      r[i] == (if s[i] == '_' then ' '
               else if IsWordChar(s[i]) && StartsWord(s, i) then Upper(s[i])
               else s[i])
  {
    var t := Spaced(s);
    assert forall i :: 0 <= i < |s| ==> (IsWordChar(t[i]) <==> IsWordChar(s[i]) && s[i] != '_');
    CapitalizeWords(t)
  }

  /** A type name made of lower-case letters and underscores, as every wire name is. */
  predicate SnakeCase(s: string)
  {
    forall i :: 0 <= i < |s| ==> IsLower(s[i]) || s[i] == '_'
  }

  /** Reading a label back: spaces become underscores and capitals lower-case letters. */
  function Unformat(r: string): (s: string)
    ensures |s| == |r|
  {
    seq(|r|, (i: int) requires 0 <= i < |r| => if r[i] == ' ' then '_' else Lower(r[i]))
  }

  /** The label loses nothing: a snake-case name is recovered from its label. */
  lemma FormatEventTypeRoundTrip(s: string)
    requires SnakeCase(s)
    ensures Unformat(FormatEventType(s)) == s
  {
    var r := FormatEventType(s);
    forall i | 0 <= i < |s|
      ensures Unformat(r)[i] == s[i]
    {
      if s[i] != '_' {
        LowerUpper(s[i]);
      }
    }
  }

  lemma InterestPaymentLabel(s: string)
    requires s == EventTypeName(InterestPayment)
    ensures FormatEventType(s) == "Interest Payment"
  {
    var a := FormatEventType(s);
    assert a[0] == 'I';
    assert a[1] == 'n';
    assert a[2] == 't';
    assert a[3] == 'e';
    assert a[4] == 'r';
    assert a[5] == 'e';
    assert a[6] == 's';
    assert a[7] == 't';
    assert a[8] == ' ';
    assert a[9] == 'P';
    assert a[10] == 'a';
    assert a[11] == 'y';
    assert a[12] == 'm';
    assert a[13] == 'e';
    assert a[14] == 'n';
    assert a[15] == 't';
  }

  lemma LoanRepaidLabel(s: string)
    requires s == EventTypeName(LoanRepaidEvent)
    ensures FormatEventType(s) == "Loan Repaid"
  {
    var b := FormatEventType(s);
    assert b[0] == 'L';
    assert b[1] == 'o';
    assert b[2] == 'a';
    assert b[3] == 'n';
    assert b[4] == ' ';
    assert b[5] == 'R';
    assert b[6] == 'e';
    assert b[7] == 'p';
    assert b[8] == 'a';
    assert b[9] == 'i';
    assert b[10] == 'd';
  }
}
