/** The resource-name encoding of internal/fgateway/ir/model.go. */
module ResourceNames {
  import opened Words
  import opened Options

  const KEY_DELIMITER := '~'

  // ---- decimal formatting (%d) ----

  function DigitChar(d: nat): (c: char)
    requires d < 10
    ensures '0' <= c <= '9'
  {
    ('0' as int + d) as char
  }

  function Decimal(n: nat): (s: string)
    ensures |s| > 0
    ensures forall i | 0 <= i < |s| :: '0' <= s[i] <= '9'
  {
    if n < 10 then [DigitChar(n)] else Decimal(n / 10) + [DigitChar(n % 10)]
  }

  predicate IsDigits(s: string)
  {
    |s| > 0 && forall i | 0 <= i < |s| :: '0' <= s[i] <= '9'
  }

  function DecimalValue(s: string): nat
    requires forall i | 0 <= i < |s| :: '0' <= s[i] <= '9'
  {
    if s == [] then 0
    else 10 * DecimalValue(s[..|s| - 1]) + (s[|s| - 1] as int - '0' as int)
  }

  /** Formatting then reading a number gives it back. */
  lemma {:induction false} DecimalRoundTrip(n: nat)
    ensures DecimalValue(Decimal(n)) == n
  {
    if n >= 10 {
      DecimalRoundTrip(n / 10);
      var s := Decimal(n);
      assert s[..|s| - 1] == Decimal(n / 10);
    } else {
      assert Decimal(n)[..0] == [];
    }
  }

  // ---- encoding ----

  datatype Parts = Parts(role: string, hash: nat, namespace: string)

  /** The name of a client: `role~hash~namespace`, or the role alone without a namespace. */
  function ResourceName(role: string, hash: nat, namespace: string): string
  {
    if namespace == "" then role
    else role + [KEY_DELIMITER] + Decimal(hash) + [KEY_DELIMITER] + namespace
  }

  lemma NameByExample()
    ensures ResourceName("gw", 407, "ns") == "gw~407~ns"
    ensures ResourceName("gw", 9, "") == "gw"
  {
    assert Decimal(4) == "4" && Decimal(40) == "40" && Decimal(407) == "407";
  }

  // ---- decoding from the right ----

  /** Index of the last delimiter, or -1. */
  function LastDelimiter(s: string): (i: int)
    ensures -1 <= i < |s|
    ensures i >= 0 ==> s[i] == KEY_DELIMITER
    ensures forall j | i < j < |s| :: s[j] != KEY_DELIMITER
  {
    if s == [] then -1
    else if s[|s| - 1] == KEY_DELIMITER then |s| - 1
    else LastDelimiter(s[..|s| - 1])
  }

  predicate IsUint64Text(s: string)
  {
    IsDigits(s) && DecimalValue(s) < UINT64_LIMIT && s == Decimal(DecimalValue(s))
  }

  function Decode(name: string): Option<Parts>
  {
    var i := LastDelimiter(name);
    if i < 0 || i + 1 == |name| then None
    else
      var front := name[..i];
      var j := LastDelimiter(front);
      if j < 0 || !IsUint64Text(front[j + 1..]) then None
      else Some(Parts(front[..j], DecimalValue(front[j + 1..]), name[i + 1..]))
  }

  ghost predicate Encodable(p: Parts)
  {
    p.hash < UINT64_LIMIT && p.namespace != "" && KEY_DELIMITER !in p.namespace
  }

  lemma SplitAtLastDelimiter(front: string, back: string)
    requires KEY_DELIMITER !in back
    ensures LastDelimiter(front + [KEY_DELIMITER] + back) == |front|
  {
    var s := front + [KEY_DELIMITER] + back;
    var i := LastDelimiter(s);
    assert s[|front|] == KEY_DELIMITER;
    assert forall j | |front| < j < |s| :: s[j] in back;
  }

  lemma DecodeEncoded(p: Parts)
    requires Encodable(p)
    ensures Decode(ResourceName(p.role, p.hash, p.namespace)) == Some(p)
  {
    var digits := Decimal(p.hash);
    var front := p.role + [KEY_DELIMITER] + digits;
    var name := ResourceName(p.role, p.hash, p.namespace);
    assert name == front + [KEY_DELIMITER] + p.namespace;
    SplitAtLastDelimiter(front, p.namespace);
    SplitAtLastDelimiter(p.role, digits);
    assert name[..|front|] == front && name[|front| + 1..] == p.namespace;
    assert front[..|p.role|] == p.role && front[|p.role| + 1..] == digits;
    DecimalRoundTrip(p.hash);
  }

  lemma EncodeDecoded(name: string, p: Parts)
    requires Decode(name) == Some(p)
    ensures Encodable(p) && name == ResourceName(p.role, p.hash, p.namespace)
  {
    var i := LastDelimiter(name);
    var front := name[..i];
    var j := LastDelimiter(front);
    assert front == front[..j] + [KEY_DELIMITER] + front[j + 1..];
    assert name == front + [KEY_DELIMITER] + name[i + 1..];
  }

  /** Decoding is exactly the inverse of encoding: a name decodes to `p` when, and only
      when, it is the encoding of `p`; the role may itself contain delimiters. */
  lemma DecodeExact(name: string, p: Parts)
    ensures Decode(name) == Some(p)
            <==> Encodable(p) && name == ResourceName(p.role, p.hash, p.namespace)
  {
    if Encodable(p) { DecodeEncoded(p); }
    if Decode(name) == Some(p) { EncodeDecoded(name, p); }
  }

  /** Names of well-formed namespaces determine role, hash and namespace. */
  lemma EncodingInjective(p: Parts, q: Parts)
    requires Encodable(p) && Encodable(q)
    requires ResourceName(p.role, p.hash, p.namespace) == ResourceName(q.role, q.hash, q.namespace)
    ensures p == q
  {
    DecodeExact(ResourceName(p.role, p.hash, p.namespace), p);
    DecodeExact(ResourceName(q.role, q.hash, q.namespace), q);
  }

  /** The hypothesis on namespaces is needed: with a delimiter in one, which Kubernetes never
      allows, two different clients would get one name. */
  lemma DelimiterInNamespaceCollides()
    ensures exists p: Parts, q: Parts ::
              p != q && ResourceName(p.role, p.hash, p.namespace) == ResourceName(q.role, q.hash, q.namespace)
  {
    var p := Parts("r", 1, "2~n");
    var q := Parts("r~1", 2, "n");
    assert Decimal(1) == ['1'] && Decimal(2) == ['2'];
    assert ResourceName(p.role, p.hash, p.namespace) == "r~1~2~n";
    assert ResourceName(q.role, q.hash, q.namespace) == "r~1~2~n";
  }
}
