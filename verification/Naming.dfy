/**
 Display names (pkg/provisioner/utils.go).  The file system plugin names a file system after
 its claim: the configured prefix followed by the claim's UID.
 */
module Naming {

  /** The code points Go's unicode.IsSpace accepts. */
  predicate IsSpace(c: char) {
    var n := c as int;
    || 9 <= n <= 13 || n == 32 || n == 0x85 || n == 0xA0 || n == 0x1680
    || 0x2000 <= n <= 0x200A || n == 0x2028 || n == 0x2029 || n == 0x202F || n == 0x205F || n == 0x3000
  }

  function TrimLeft(s: string): (r: string)
    ensures r == "" || !IsSpace(r[0])
    ensures |r| <= |s| && r == s[|s| - |r|..]
    ensures forall k :: 0 <= k < |s| - |r| ==> IsSpace(s[k])
  {
    if s != "" && IsSpace(s[0]) then
      var r := TrimLeft(s[1..]);
      assert r == s[|s| - |r|..];
      r
    else s
  }

  function TrimRight(s: string): (r: string)
    ensures r == "" || !IsSpace(r[|r| - 1])
    ensures r <= s
    ensures forall k :: |r| <= k < |s| ==> IsSpace(s[k])
  {
    if s != "" && IsSpace(s[|s| - 1]) then TrimRight(s[..|s| - 1]) else s
  }

  function TrimSpace(s: string): string {
    TrimRight(TrimLeft(s))
  }

  /** The prefix for a given value of OCI_VOLUME_NAME_PREFIX; an unset variable reads as "". */
  function GetPrefix(environment: string): (prefix: string)
    ensures prefix == "" || (prefix[|prefix| - 1] == '-' && !IsSpace(prefix[0]))
  {
    var trimmed := TrimSpace(environment);
    if trimmed != "" && trimmed[|trimmed| - 1] != '-' then trimmed + "-" else trimmed
  }

  function DisplayName(prefix: string, uid: string): string {
    prefix + uid
  }

  ghost predicate AllSpace(s: string) {
    forall k | 0 <= k < |s| :: IsSpace(s[k])
  }

  /** Text that neither begins nor ends with a space. */
  predicate Tight(s: string) {
    s == "" || (!IsSpace(s[0]) && !IsSpace(s[|s| - 1]))
  }

  lemma SpacesBefore(s: string) returns (lead: string)
    ensures s == lead + TrimLeft(s) && AllSpace(lead)
  {
    hide IsSpace;
    lead := s[..|s| - |TrimLeft(s)|];
    forall k | 0 <= k < |lead| ensures IsSpace(lead[k]) { assert IsSpace(s[k]); }
  }

  lemma SpacesAfter(s: string) returns (trail: string)
    ensures s == TrimRight(s) + trail && AllSpace(trail)
  {
    hide IsSpace;
    var n := |TrimRight(s)|;
    trail := s[n..];
    forall k | 0 <= k < |trail| ensures IsSpace(trail[k]) { assert IsSpace(s[n + k]); }
  }

  /** Every value is a tight text between spaces. */
  lemma Surrounded(environment: string) returns (lead: string, text: string, trail: string)
    ensures environment == lead + text + trail && AllSpace(lead) && AllSpace(trail) && Tight(text)
  {
    hide IsSpace, AllSpace;
    var rest := TrimLeft(environment);
    text := TrimRight(rest);
    lead := SpacesBefore(environment);
    trail := SpacesAfter(rest);
    hide TrimLeft, TrimRight;
    assert text != "" ==> text[0] == rest[0];
    assert lead + (text + trail) == lead + text + trail;
  }

  lemma {:induction false} TrimLeftOf(lead: string, rest: string)
    requires AllSpace(lead) && (rest == "" || !IsSpace(rest[0]))
    ensures TrimLeft(lead + rest) == rest
  {
    hide IsSpace;
    if lead == "" {
      assert lead + rest == rest;
    } else {
      assert (lead + rest)[0] == lead[0] && (lead + rest)[1..] == lead[1..] + rest;
      TrimLeftOf(lead[1..], rest);
    }
  }

  lemma {:induction false} TrimRightOf(rest: string, trail: string)
    requires AllSpace(trail) && (rest == "" || !IsSpace(rest[|rest| - 1]))
    ensures TrimRight(rest + trail) == rest
  {
    hide IsSpace;
    if trail == "" {
      assert rest + trail == rest;
    } else {
      var n := |trail| - 1;
      assert (rest + trail)[|rest| + n] == trail[n] && (rest + trail)[..|rest| + n] == rest + trail[..n];
      TrimRightOf(rest, trail[..n]);
    }
  }

  lemma TrimmedIs(lead: string, text: string, trail: string)
    requires AllSpace(lead) && AllSpace(trail) && Tight(text)
    ensures TrimSpace(lead + text + trail) == text
  {
    hide IsSpace, TrimLeft, TrimRight;
    if text == "" {
      assert lead + text + trail == (lead + trail) + "";
      TrimLeftOf(lead + trail, "");
      TrimRightOf("", "");
      assert "" + "" == "";
    } else {
      assert lead + text + trail == lead + (text + trail);
      TrimLeftOf(lead, text + trail);
      TrimRightOf(text, trail);
    }
  }

  /** And the prefix is that text, with a hyphen at its end unless it is empty or has one. */
  lemma PrefixOf(lead: string, text: string, trail: string)
    requires AllSpace(lead) && AllSpace(trail) && Tight(text)
    ensures GetPrefix(lead + text + trail) == if text == "" || text[|text| - 1] == '-' then text else text + "-"
  {
    hide IsSpace, TrimSpace, AllSpace, Tight;
    TrimmedIs(lead, text, trail);
  }

  /** A value that is already a prefix is left alone. */
  lemma GetPrefixIdempotent(environment: string)
    ensures GetPrefix(GetPrefix(environment)) == GetPrefix(environment)
  {
    var p := GetPrefix(environment);
    if p != "" {
      assert !IsSpace('-');
      assert TrimLeft(p) == p && TrimRight(p) == p;
    }
  }

  /** For one prefix, two claims share a display name only if they are the same claim. */
  lemma DisplayNameInjective(prefix: string, a: string, b: string)
    requires DisplayName(prefix, a) == DisplayName(prefix, b)
    ensures a == b
  {
    assert a == DisplayName(prefix, a)[|prefix|..] == DisplayName(prefix, b)[|prefix|..] == b;
  }

  /**
   Exactly when two prefixes can make two claims collide: one prefix extends the other, and
   the longer one's extra characters open the UID under the shorter.
   */
  lemma DisplayNameCollision(p: string, q: string, a: string, b: string)
    requires |p| <= |q|
    ensures DisplayName(p, a) == DisplayName(q, b) <==> p <= q && a == q[|p|..] + b
  {
    if DisplayName(p, a) == DisplayName(q, b) {
      assert p == DisplayName(p, a)[..|p|] == DisplayName(q, b)[..|p|] == q[..|p|];
      assert a == DisplayName(p, a)[|p|..] == DisplayName(q, b)[|p|..] == q[|p|..] + b;
    }
    if p <= q && a == q[|p|..] + b {
      assert q == p + q[|p|..];
      assert p + (q[|p|..] + b) == (p + q[|p|..]) + b;
    }
  }
}
