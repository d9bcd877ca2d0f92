/** Identifiers on the wire, and the keys the gateway derives from them. */
module Names {

  datatype Option<+T> = None | Some(value: T)

  datatype SessionID = SessionID(name: string)

  const NO_SESSION := SessionID("")

  /** A normalized JSON-RPC id, or an owner key. */
  datatype Key = Key(text: string)

  function Digit(d: nat): char
    requires d < 10
  {
    '0' + d as char
  }

  /** n in decimal, without leading zeros. */
  function Decimal(n: nat): (s: string)
    ensures s != []
    ensures forall i | 0 <= i < |s| :: '0' <= s[i] <= '9'
  {
    if n < 10 then [Digit(n)] else Decimal(n / 10) + [Digit(n % 10)]
  }

  function Value(s: string): nat
    requires forall i | 0 <= i < |s| :: '0' <= s[i] <= '9'
  {
    if s == [] then 0 else Value(s[..|s| - 1]) * 10 + (s[|s| - 1] - '0') as nat
  }

  lemma {:induction false} ValueOfDecimal(n: nat)
    ensures Value(Decimal(n)) == n
  {
    if n < 10 {
      assert Decimal(n)[..0] == [];
    } else {
      ValueOfDecimal(n / 10);
      assert Decimal(n)[..|Decimal(n)| - 1] == Decimal(n / 10);
    }
  }

  /** The id the gateway gives its n-th request. */
  function AgentKey(n: nat): Key {
    Key(Decimal(n))
  }

  lemma AgentKeyNames(m: nat, n: nat)
    requires AgentKey(m) == AgentKey(n)
    ensures m == n
  {
    ValueOfDecimal(m);
    ValueOfDecimal(n);
  }

  function OwnerKey(gen: nat, clientID: string): Key {
    Key(Decimal(gen) + ":" + clientID)
  }

  lemma ColonAt(a: string, b: string, x: string, y: string)
    requires a + ":" + x == b + ":" + y
    requires ':' !in a && ':' !in b
    ensures a == b && x == y
  {
    var s := a + ":" + x;
    assert forall i | 0 <= i < |a| :: s[i] == a[i];
    assert forall i | 0 <= i < |b| :: s[i] == b[i];
    assert s[|a|] == s[|b|] == ':';
    assert a == s[..|a|] && b == s[..|b|] && x == s[|a| + 1..] && y == s[|b| + 1..];
  }

  /** An owner key names one request id of one connection: no two connections' ids ever meet. */
  lemma OwnerKeyNames(g: nat, h: nat, x: string, y: string)
    requires OwnerKey(g, x) == OwnerKey(h, y)
    ensures g == h && x == y
  {
    ColonAt(Decimal(g), Decimal(h), x, y);
    ValueOfDecimal(g);
    ValueOfDecimal(h);
  }
}
