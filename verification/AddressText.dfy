/**
 Text forms of addresses. The dotted quad of IPv4 is concrete; it shows that printing as the flow
 key needs it is possible. The text form of IPv6 is library code and stays a parameter.
 */
module AddressText {
  import opened Types
  import opened Text
  import opened Conntrack

  /** `Display` of an IPv4 address. */
  function DottedQuad(q: Octets4): string {
    Decimal(q[0] as nat) + "." + (Decimal(q[1] as nat) + "." + (Decimal(q[2] as nat) + "." + Decimal(q[3] as nat)))
  }

  lemma DecimalHasNoDot(n: nat)
    ensures '.' !in Decimal(n)
  {
    DecimalShape(n);
  }

  lemma PartsUnique(m: nat, rest: string, n: nat, rest': string)
    requires Decimal(m) + "." + rest == Decimal(n) + "." + rest'
    ensures m == n && rest == rest'
  {
    DecimalHasNoDot(m);
    DecimalHasNoDot(n);
    SplitFirstUnique(Decimal(m), rest, Decimal(n), rest', '.');
    DecimalInjective(m, n);
  }

  /** How an address is written, on an example. */
  lemma KnownQuad(q: Octets4)
    requires q == [192, 168, 1, 10]
    ensures DottedQuad(q) == "192.168.1.10"
  {
    assert Decimal(19) == "19" && Decimal(192) == "192";
    assert Decimal(16) == "16" && Decimal(168) == "168";
    assert Decimal(1) == "1" && Decimal(10) == "10";
  }

  /** A dotted quad stands for one address only. */
  lemma DottedQuadInjective(p: Octets4, q: Octets4)
    requires DottedQuad(p) == DottedQuad(q)
    ensures p == q
  {
    var p2, q2 := Decimal(p[2] as nat) + "." + Decimal(p[3] as nat), Decimal(q[2] as nat) + "." + Decimal(q[3] as nat);
    var p1, q1 := Decimal(p[1] as nat) + "." + p2, Decimal(q[1] as nat) + "." + q2;
    PartsUnique(p[0] as nat, p1, q[0] as nat, q1);
    PartsUnique(p[1] as nat, p2, q[1] as nat, q2);
    PartsUnique(p[2] as nat, Decimal(p[3] as nat), q[2] as nat, Decimal(q[3] as nat));
    DecimalInjective(p[3] as nat, q[3] as nat);
  }

  /** ... and is a token that a flow key can be taken apart around. */
  lemma DottedQuadIsClean(q: Octets4)
    ensures var s := DottedQuad(q);
            IsToken(s) && '-' !in s && '=' !in s
  {
    DecimalIsClean(q[0] as nat);
    DecimalIsClean(q[1] as nat);
    DecimalIsClean(q[2] as nat);
    DecimalIsClean(q[3] as nat);
  }

  /** Given any text form of IPv6 that is parsed back and keeps to tokens without '-' and '=', printing
      and parsing of all addresses fits together as the flow key needs it. Nothing is said of other
      texts that the parser may accept. */
  lemma FaithfulFromV6(v6: Octets16 -> string, codec: AddrText)
    requires forall o :: codec.render(V6(o)) == v6(o) && codec.parse(v6(o)) == Some(V6(o))
    requires forall q :: codec.render(V4(q)) == DottedQuad(q) && codec.parse(DottedQuad(q)) == Some(V4(q))
    requires forall o :: IsToken(v6(o)) && '-' !in v6(o) && '=' !in v6(o)
    ensures Faithful(codec)
  {
    forall a ensures codec.parse(codec.render(a)) == Some(a) && PrintsClean(codec, a) {
      match a
      case V4(q) => DottedQuadIsClean(q);
      case V6(o) => assert IsToken(v6(o));
    }
  }
}
