/** The figures and badges of the pool headers: the details card and the canvas header
    (subject and banner) derive the same values from a pool, its optional extension
    record and its optional capital-flow rows. */
module Cards {
  import opened Wrappers
  import opened Seqs
  import opened Types
  import opened ChartCommon
  import opened MicroCharts
  import opened Text

  // ---------------------------------------------------------------- net change and trend

  /** `capitalFlowData?.reduce((sum, d) => sum + net_flow, 0) || 0`: the net flow over all
      rows, which is also the sum of the monthly totals the bars are drawn from; 0
      without rows. */
  function NetChange(flows: Option<seq<FlowRow>>): (r: real)
    ensures flows.None? ==> r == 0.0
    ensures flows.Some? ==> r == TotalOver(flows.value, Months(flows.value))
  {
    match flows
    case None => 0.0
    case Some(rows) =>
      MonthTotalsConserve(rows);
      var total := NetSum(rows);
      if total == 0.0 then 0.0 else total
  }

  /** The trend arrow points up when the net change is not negative. */
  function TrendUp(flows: Option<seq<FlowRow>>): (up: bool)
    ensures flows.None? || flows == Some([]) ==> up
    ensures up <==> NetChange(flows) >= 0.0
  {
    NetChange(flows) >= 0.0
  }

  // ---------------------------------------------------------------- protocol badge

  /** `s.split("-")`: the pieces between the dashes, at least one. */
  function Split(s: string): (r: seq<string>)
    ensures |r| >= 1
    ensures forall i :: 0 <= i < |r| ==> '-' !in r[i]
  {
    if s == [] then [[]]
    else
      var rest := Split(s[1..]);
      if s[0] == '-' then [[]] + rest
      else
        assert forall i :: 1 <= i < |rest| ==> rest[1..][i - 1] == rest[i];
        [[s[0]] + rest[0]] + rest[1..]
  }

  /** `parts.join(sep)`. */
  function Join(parts: seq<string>, sep: string): string
    requires |parts| >= 1
  {
    if |parts| == 1 then parts[0] else parts[0] + sep + Join(parts[1..], sep)
  }

  lemma JoinCons(c: char, a: string, more: seq<string>, sep: string)
    ensures Join([[c] + a] + more, sep) == [c] + Join([a] + more, sep)
  {
    assert ([[c] + a] + more)[1..] == more == ([a] + more)[1..];
  }

  /** Splitting on dashes and joining with dashes gives the string back. */
  lemma {:induction false} SplitJoin(s: string)
    ensures Join(Split(s), "-") == s
  {
    if s != [] {
      var rest := Split(s[1..]);
      SplitJoin(s[1..]);
      if s[0] == '-' {
        assert ([[]] + rest)[1..] == rest;
        assert s == "-" + s[1..];
      } else {
        assert [rest[0]] + rest[1..] == rest;
        JoinCons(s[0], rest[0], rest[1..], "-");
        assert s == [s[0]] + s[1..];
      }
    }
  }

  /** `parts.map((w) => w.charAt(0).toUpperCase() + w.slice(1))`. */
  function Capitals(parts: seq<string>): (r: seq<string>)
    ensures |r| == |parts|
  {
    if parts == [] then [] else [Capitalize(parts[0])] + Capitals(parts[1..])
  }

  /** The badge text read character by character: a dash becomes a space, and the first
      character of the string (when `atStart`) or after a dash is upper-cased. */
  function TitleChars(s: string, atStart: bool): (r: string)
    ensures |r| == |s|
  {
    if s == [] then []
    else if s[0] == '-' then " " + TitleChars(s[1..], true)
    else [if atStart then Upper(s[0]) else s[0]] + TitleChars(s[1..], false)
  }

  /** What one character of the badge is. */
  function LabelChar(s: string, i: int): char
    requires 0 <= i < |s|
  {
    if s[i] == '-' then ' '
    else if i == 0 || s[i - 1] == '-' then Upper(s[i])
    else s[i]
  }

  lemma {:induction false} TitleCharAt(s: string, atStart: bool, i: int)
    requires 0 <= i < |s|
    ensures TitleChars(s, atStart)[i] == (if s[i] == '-' then ' '
                                          else if (if i == 0 then atStart else s[i - 1] == '-') then Upper(s[i])
                                          else s[i])
  {
    if i > 0 {
      TitleCharAt(s[1..], s[0] == '-', i - 1);
      assert TitleChars(s, atStart)[i] == TitleChars(s[1..], s[0] == '-')[i - 1];
      assert s[1..][i - 1] == s[i];
      if i > 1 {
        assert s[1..][i - 2] == s[i - 1];
      }
    }
  }

  lemma {:induction false} LabelIsTitle(s: string)
    ensures var ps := Split(s);
      && Join([Capitalize(ps[0])] + Capitals(ps[1..]), " ") == TitleChars(s, true)
      && Join([ps[0]] + Capitals(ps[1..]), " ") == TitleChars(s, false)
  {
    if s != [] {
      var rest := Split(s[1..]);
      LabelIsTitle(s[1..]);
      var tail := Capitals(rest[1..]);
      if s[0] == '-' {
        assert Split(s)[1..] == rest;
        assert Capitals(rest) == [Capitalize(rest[0])] + tail;
        assert ([[]] + Capitals(rest))[1..] == Capitals(rest);
      } else {
        assert Split(s)[1..] == rest[1..];
        assert Capitalize([s[0]] + rest[0]) == [Upper(s[0])] + rest[0];
        JoinCons(Upper(s[0]), rest[0], tail, " ");
        JoinCons(s[0], rest[0], tail, " ");
      }
    }
  }

  /** The protocol badge: `protocolId.split("-").map(capitalise).join(" ")`. Each dash
      becomes a space and the first letter of each piece is upper-cased; nothing else
      changes. */
  function ProtocolLabel(protocolId: string): (r: string)
    ensures |r| == |protocolId|
    ensures forall i :: 0 <= i < |protocolId| ==> r[i] == LabelChar(protocolId, i)
  {
    var ps := Split(protocolId);
    LabelIsTitle(protocolId);
    assert Capitals(ps) == [Capitalize(ps[0])] + Capitals(ps[1..]);
    var r := Join(Capitals(ps), " ");
    assert r == TitleChars(protocolId, true);
    forall i | 0 <= i < |protocolId|
      ensures r[i] == LabelChar(protocolId, i)
    {
      TitleCharAt(protocolId, true, i);
    }
    r
  }

  lemma MapleFinanceLabel(s: string)
    requires s == "maple-finance"
    ensures ProtocolLabel(s) == "Maple Finance"
  {
    var r := ProtocolLabel(s);
    assert r[0] == LabelChar(s, 0) == 'M';
    assert r[1] == LabelChar(s, 1) == 'a';
    assert r[2] == LabelChar(s, 2) == 'p';
    assert r[3] == LabelChar(s, 3) == 'l';
    assert r[4] == LabelChar(s, 4) == 'e';
    assert r[5] == LabelChar(s, 5) == ' ';
    assert r[6] == LabelChar(s, 6) == 'F';
    assert r[7] == LabelChar(s, 7) == 'i';
    assert r[8] == LabelChar(s, 8) == 'n';
    assert r[9] == LabelChar(s, 9) == 'a';
    assert r[10] == LabelChar(s, 10) == 'n';
    assert r[11] == LabelChar(s, 11) == 'c';
    assert r[12] == LabelChar(s, 12) == 'e';
  }

  // ---------------------------------------------------------------- status badge

  /** The wire spelling of a pool status. */
  function StatusName(s: PoolStatus): string
  {
    match s
    case PoolOpen => "open"
    case PoolClosed => "closed"
    case PoolDefaulted => "defaulted"
  }

  /** The tint the status badge carries. */
  datatype Tint = Emerald | Red | NoTint

  /** The status badge: its capitalised text, its variant and its tint. */
  datatype StatusBadge = StatusBadge(text: string, variant: BadgeVariant, tint: Tint)

  function StatusBadgeOf(s: PoolStatus): (b: StatusBadge)
    ensures b.text == Capitalize(StatusName(s))
    ensures b.variant == DefaultVariant <==> s == PoolOpen
    ensures b.variant == Outline <==> s != PoolOpen
    ensures b.tint == Emerald <==> s == PoolOpen
    ensures b.tint == Red <==> s == PoolDefaulted
  {
    StatusBadge(Capitalize(StatusName(s)),
                if s == PoolOpen then DefaultVariant else Outline,
                if s == PoolOpen then Emerald else if s == PoolDefaulted then Red else NoTint)
  }

  lemma StatusTexts()
    ensures StatusBadgeOf(PoolOpen).text == "Open"
    ensures StatusBadgeOf(PoolClosed).text == "Closed"
    ensures StatusBadgeOf(PoolDefaulted).text == "Defaulted"
  {
  }

  // ---------------------------------------------------------------- loan badges

  /** `loanSummary?.active || pool.activeLoansCount`: the summary's active count when the
      summary is there and the count is not 0, the pool's own count otherwise. */
  function ActiveLoans(pool: Pool, ext: Option<PoolExtended>): (n: int)
    ensures ext.Some? && ext.value.loanSummary.Some? && ext.value.loanSummary.value.active != 0
            ==> n == ext.value.loanSummary.value.active
    ensures ext.None? || ext.value.loanSummary.None? ==> n == pool.activeLoansCount
    ensures ext.Some? && ext.value.loanSummary.Some? && ext.value.loanSummary.value.active == 0
            ==> n == pool.activeLoansCount
    ensures n == pool.activeLoansCount
            || (ext.Some? && ext.value.loanSummary.Some? && n == ext.value.loanSummary.value.active)
  {
    var active := if ext.Some? && ext.value.loanSummary.Some? then Some(ext.value.loanSummary.value.active) else None;
    OrDefault(active, pool.activeLoansCount)
  }

  /** The defaults badge: shown, with the count, exactly when the summary reports at least
      one defaulted loan. */
  function DefaultsBadge(ext: Option<PoolExtended>): (d: Option<int>)
    ensures d.Some? <==> ext.Some? && ext.value.loanSummary.Some? && ext.value.loanSummary.value.defaulted > 0
    ensures d.Some? ==> d.value > 0 && d.value == ext.value.loanSummary.value.defaulted
  {
    if ext.Some? && ext.value.loanSummary.Some? && ext.value.loanSummary.value.defaulted > 0
    then Some(ext.value.loanSummary.value.defaulted) else None
  }

  /** The NAV badge: shown when a NAV is present and not 0 (`nav && …`). */
  function NavBadge(ext: Option<PoolExtended>): (b: Option<Compact>)
    ensures b.Some? <==> ext.Some? && ext.value.nav.Some? && ext.value.nav.value != 0
    ensures b.Some? ==> b.value == CardCurrency(ext.value.nav.value as real)
  {
    if ext.Some? && ext.value.nav.Some? && ext.value.nav.value != 0
    then Some(CardCurrency(ext.value.nav.value as real)) else None
  }

  /** The asset badge: the asset's symbol, when the extension record names an asset. */
  function AssetBadge(ext: Option<PoolExtended>): (b: Option<string>)
    ensures b.Some? <==> ext.Some? && ext.value.asset.Some?
    ensures b.Some? ==> b.value == ext.value.asset.value.symbol
  {
    if ext.Some? && ext.value.asset.Some? then Some(ext.value.asset.value.symbol) else None
  }
}
