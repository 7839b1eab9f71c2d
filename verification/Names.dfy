/** Pod names and shard labels carry a number in decimal; reading it back gives the number. */
module Names {
  import opened Types

  function Digit(d: nat): char
    requires d < 10
  {
    (48 + d) as char
  }

  function Decimal(n: nat): string {
    if n < 10 then [Digit(n)] else Decimal(n / 10) + [Digit(n % 10)]
  }

  /** The value of a nonempty text of digits. */
  function Digits(text: string): Option<nat> {
    if text == "" then None
    else
      var c := text[|text| - 1];
      if !('0' <= c <= '9') then None
      else if |text| == 1 then Some(c as int - 48)
      else match Digits(text[..|text| - 1])
        case None => None
        case Some(n) => Some(10 * n + (c as int - 48))
  }

  /** Digits with an optional sign. */
  function Atoi(text: string): Option<int> {
    if text != "" && (text[0] == '+' || text[0] == '-') then
      match Digits(text[1..])
      case None => None
      case Some(n) => var value: int := n; Some(if text[0] == '-' then -value else value)
    else
      match Digits(text)
      case None => None
      case Some(n) => Some(n)
  }

  lemma {:induction false} DigitsOfDecimal(n: nat)
    ensures Digits(Decimal(n)) == Some(n)
    ensures |Decimal(n)| > 0 && '0' <= Decimal(n)[0] <= '9'
  {
    if n >= 10 {
      DigitsOfDecimal(n / 10);
      var text := Decimal(n);
      assert text[..|text| - 1] == Decimal(n / 10);
      assert text[|text| - 1] == Digit(n % 10);
    }
  }

  lemma AtoiOfDecimal(n: nat)
    ensures Atoi(Decimal(n)) == Some(n)
  {
    DigitsOfDecimal(n);
  }

  function PodName(cluster: string, index: nat): string {
    cluster + "-" + Decimal(index)
  }

  /** The number behind the cluster name and the dash; text that is no number counts as 0. */
  function PodIndex(cluster: string, pod: string): int
    requires |pod| > |cluster|
  {
    match Atoi(pod[|cluster| + 1..])
    case None => 0
    case Some(n) => n
  }

  /** A pod's name determines its ordinal, so pods can be told apart by ordinal. */
  lemma PodIndexOfName(cluster: string, index: nat, other: nat)
    ensures PodIndex(cluster, PodName(cluster, index)) == index
    ensures PodName(cluster, index) == PodName(cluster, other) ==> index == other
  {
    AtoiOfDecimal(index);
    AtoiOfDecimal(other);
    assert PodName(cluster, index)[|cluster| + 1..] == Decimal(index);
    assert PodName(cluster, other)[|cluster| + 1..] == Decimal(other);
  }

  // ---------------------------------------------------------------- textual order

  predicate TextUpTo(a: string, b: string) {
    a == "" || (b != "" && (a[0] < b[0] || (a[0] == b[0] && TextUpTo(a[1..], b[1..]))))
  }

  lemma {:induction false} TextIsTotal(a: string, b: string)
    ensures TextUpTo(a, b) || TextUpTo(b, a)
  {
    if a != "" && b != "" { TextIsTotal(a[1..], b[1..]); }
  }

  lemma {:induction false} TextIsTransitive(a: string, b: string, c: string)
    requires TextUpTo(a, b) && TextUpTo(b, c)
    ensures TextUpTo(a, c)
  {
    if a != "" && a[0] == b[0] == c[0] { TextIsTransitive(a[1..], b[1..], c[1..]); }
  }

  /** Pod names in textual order, in which pod 10 comes before pod 2. */
  ghost predicate ByName(cluster: string, pods: seq<nat>) {
    forall i, j :: 0 <= i < j < |pods| ==> TextUpTo(PodName(cluster, pods[i]), PodName(cluster, pods[j]))
  }

  function InsertByName(cluster: string, pods: seq<nat>, p: nat): seq<nat> {
    if pods == [] || TextUpTo(PodName(cluster, pods[|pods| - 1]), PodName(cluster, p)) then pods + [p]
    else InsertByName(cluster, pods[..|pods| - 1], p) + [pods[|pods| - 1]]
  }

  function SortByName(cluster: string, pods: seq<nat>): seq<nat> {
    if pods == [] then [] else InsertByName(cluster, SortByName(cluster, pods[..|pods| - 1]), pods[|pods| - 1])
  }

  lemma {:induction false} InsertByNameProperties(cluster: string, pods: seq<nat>, p: nat)
    requires ByName(cluster, pods)
    ensures ByName(cluster, InsertByName(cluster, pods, p))
    ensures multiset(InsertByName(cluster, pods, p)) == multiset(pods) + multiset{p}
  {
    hide TextUpTo, PodName;
    if pods != [] {
      var front, last := pods[..|pods| - 1], pods[|pods| - 1];
      assert pods == front + [last];
      if TextUpTo(PodName(cluster, last), PodName(cluster, p)) {
        forall i | 0 <= i < |pods| ensures TextUpTo(PodName(cluster, pods[i]), PodName(cluster, p)) {
          if i < |front| { TextIsTransitive(PodName(cluster, pods[i]), PodName(cluster, last), PodName(cluster, p)); }
        }
      } else {
        InsertByNameProperties(cluster, front, p);
        TextIsTotal(PodName(cluster, last), PodName(cluster, p));
        var inserted := InsertByName(cluster, front, p);
        forall i | 0 <= i < |inserted| ensures TextUpTo(PodName(cluster, inserted[i]), PodName(cluster, last)) {
          assert inserted[i] in multiset(inserted);
          assert inserted[i] in front || inserted[i] == p;
        }
      }
    }
  }

  lemma {:induction false} SortByNameProperties(cluster: string, pods: seq<nat>)
    ensures ByName(cluster, SortByName(cluster, pods))
    ensures multiset(SortByName(cluster, pods)) == multiset(pods)
  {
    if pods != [] {
      assert pods == pods[..|pods| - 1] + [pods[|pods| - 1]];
      SortByNameProperties(cluster, pods[..|pods| - 1]);
      InsertByNameProperties(cluster, SortByName(cluster, pods[..|pods| - 1]), pods[|pods| - 1]);
    }
  }

  function ShardName(index: nat): string {
    "s" + Decimal(index)
  }

  /** The shard a label names, if it is an "s" followed by a number that is not negative. */
  function ParseShardLabel(text: Option<string>): (index: Option<nat>)
    ensures forall n: nat :: index == Some(n) <==> text.Some? && "s" <= text.value && Atoi(text.value[1..]) == Some(n)
  {
    if text.None? || !("s" <= text.value) then None
    else match Atoi(text.value[1..])
      case None => None
      case Some(n) => if n < 0 then None else Some(n)
  }

  /** A label the operator writes is read back as the shard it was written for. */
  lemma ShardLabelRoundTrip(index: nat)
    ensures ParseShardLabel(Some(ShardName(index))) == Some(index)
  {
    AtoiOfDecimal(index);
    assert ShardName(index)[1..] == Decimal(index);
  }

  /** Not only what it writes: a signed or padded number is read as well. */
  lemma OtherLabelsAreRead()
    ensures ParseShardLabel(Some("s+5")) == Some(5) && ShardName(5) != "s+5"
    ensures ParseShardLabel(Some("s05")) == Some(5) && ParseShardLabel(Some("s-1")) == None
  {
    assert "s+5"[1..] == "+5" && "+5"[1..] == "5" && Digits("5") == Some(5);
    assert "s05"[1..] == "05" && "05"[..1] == "0" && Digits("0") == Some(0) && Digits("05") == Some(5);
    assert "s-1"[1..] == "-1" && "-1"[1..] == "1" && Digits("1") == Some(1);
    assert Decimal(5) == ['5'];
  }
}
