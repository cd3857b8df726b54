/** Actor identities: cmd/egress-broker/ateapi.go (`ActorRef`) and cmd/egress-broker/server.go
    (`parseActorRef`). */
module Identity {
  import opened Wrappers

  datatype ActorRef = ActorRef(atespace: string, name: string)

  const GOLDEN_ATESPACE := "ate-golden"

  /** ActorRef.String, which is also the single-flight key of a resume. */
  function ToString(r: ActorRef): string {
    r.atespace + "/" + r.name
  }

  /** strings.IndexByte: the first position of `c`, or -1. */
  function IndexOf(v: string, c: char): (i: int)
    ensures -1 <= i < |v|
    ensures i == -1 <==> c !in v
    ensures i >= 0 ==> v[i] == c && c !in v[..i]
  {
    if v == "" then -1
    else if v[0] == c then 0
    else
      var rest := IndexOf(v[1..], c);
      assert v == [v[0]] + v[1..];
      if rest == -1 then -1 else assert v[..rest + 1] == [v[0]] + v[1..][..rest]; rest + 1
  }

  function ParseActorRef(v: string): Option<ActorRef> {
    var i := IndexOf(v, '/');
    if i <= 0 || i >= |v| - 1 then None
    else
      var name := v[i + 1..];
      if '/' in name then None else Some(ActorRef(v[..i], name))
  }

  /** Both parts present and free of the separator. */
  predicate WellFormed(r: ActorRef) {
    r.atespace != "" && r.name != "" && '/' !in r.atespace && '/' !in r.name
  }

  /** A string parses to an identity exactly if it is the atespace, a slash and the name, both
      present and free of slashes; printing is the inverse. */
  lemma ParseIsInverseOfString(v: string, r: ActorRef)
    ensures ParseActorRef(v) == Some(r) <==>
            && r.atespace != "" && r.name != "" && '/' !in r.atespace && '/' !in r.name
            && v == r.atespace + "/" + r.name
    ensures ParseActorRef(v) == Some(r) <==> WellFormed(r) && v == ToString(r)
  {
    var i := IndexOf(v, '/');
    if ParseActorRef(v) == Some(r) {
      assert v == v[..i] + [v[i]] + v[i + 1..];
    }
    if WellFormed(r) && v == ToString(r) {
      assert v[|r.atespace|] == '/';
      assert v[..|r.atespace|] == r.atespace;
      assert i == |r.atespace|;
      assert v[..i] == r.atespace && v[i + 1..] == r.name;
    }
  }

  /** Two actors named by any header never share a resume single-flight key. */
  lemma ParsedActorsHaveDistinctKeys(v: string, w: string, a: ActorRef, b: ActorRef)
    requires ParseActorRef(v) == Some(a) && ParseActorRef(w) == Some(b)
    ensures ToString(a) == ToString(b) <==> a == b
  {
    ParseIsInverseOfString(v, a);
    ParseIsInverseOfString(w, b);
    if ToString(a) == ToString(b) {
      assert v == w;
    }
  }

  /** Without the parser's restriction the key is ambiguous. */
  lemma UnparsedActorsMayShareAKey()
    ensures exists a: ActorRef, b: ActorRef :: a != b && ToString(a) == ToString(b)
  {
    var a, b := ActorRef("x/y", "z"), ActorRef("x", "y/z");
    assert ToString(a) == "x/y/z" == ToString(b);
    assert a.name == "z" && b.name == "y/z" && |a.name| != |b.name|;
  }
}
