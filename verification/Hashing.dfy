// plan_hash and chain_hash (app/domain/hashing.py). SHA-256 is a parameter: every result
// holds for every function from text to text, and where two digests agree the results
// name the two texts that collide instead of assuming that there are none.
module Hashing {
  import opened Json
  import CanonicalForm

  type Digest = string -> string

  // hexdigest of the all-zero predecessor: 64 zeros.
  const GENESIS_HASH: string := "0000000000000000000000000000000000000000000000000000000000000000"

  predicate Collision(sha: Digest, a: string, b: string) {
    a != b && sha(a) == sha(b)
  }

  function PlanHash(sha: Digest, payload: Value): string {
    sha(Canonicalize(payload))
  }

  function ChainMaterial(previous: string, body: Value): Value {
    Obj([Field("previous_event_hash", Str(previous)), Field("event_body", body)])
  }

  function ChainPreimage(previous: string, body: Value, secret: string): string {
    secret + "\n" + Canonicalize(ChainMaterial(previous, body))
  }

  function ChainHash(sha: Digest, previous: string, body: Value, secret: string): string {
    sha(ChainPreimage(previous, body, secret))
  }

  // The plan hash identifies the payload: equal hashes exactly for equal content, unless
  // the two canonical texts are a collision of the digest.
  lemma PlanHashBinds(sha: Digest, a: Value, b: Value)
    requires WellFormed(a) && WellFormed(b)
    ensures PlanHash(sha, a) == PlanHash(sha, b) <==>
            Same(a, b) || Collision(sha, Canonicalize(a), Canonicalize(b))
  {
    CanonicalForm.CanonicalIffSame(a, b);
  }

  // A text splits at its last newline in one way only.
  lemma {:induction false} SplitAtLastNewline(s1: string, c1: string, s2: string, c2: string)
    requires '\n' !in c1 && '\n' !in c2
    requires s1 + "\n" + c1 == s2 + "\n" + c2
    ensures s1 == s2 && c1 == c2
  {
    NewlineEndsAt(s1, c1);
    NewlineEndsAt(s2, c2);
    var t := s1 + "\n" + c1;
    assert s1 == t[..|s1|] && s2 == t[..|s2|];
    assert c1 == t[|s1| + 1..] && c2 == t[|s2| + 1..];
  }

  lemma NewlineEndsAt(s: string, c: string)
    requires '\n' !in c
    ensures (s + "\n" + c)[|s|] == '\n'
    ensures forall i :: |s| < i < |s + "\n" + c| ==> (s + "\n" + c)[i] != '\n'
  {
    forall i | |s| < i < |s + "\n" + c|
      ensures (s + "\n" + c)[i] != '\n'
    {
      assert (s + "\n" + c)[i] == c[i - |s| - 1];
    }
  }

  lemma MaterialSame(p1: string, b1: Value, p2: string, b2: Value)
    requires WellFormed(b1) && WellFormed(b2)
    ensures WellFormed(ChainMaterial(p1, b1)) && WellFormed(ChainMaterial(p2, b2))
    ensures Same(ChainMaterial(p1, b1), ChainMaterial(p2, b2)) <==> p1 == p2 && Same(b1, b2)
  {
    var x, y := ChainMaterial(p1, b1).fields, ChainMaterial(p2, b2).fields;
    assert Keys(x) == {x[0].key, x[1].key} && Keys(y) == {y[0].key, y[1].key};
    if Same(ChainMaterial(p1, b1), ChainMaterial(p2, b2)) {
      assert Same(x[0].value, y[0].value) && Same(x[1].value, y[1].value);
    }
    if p1 == p2 && Same(b1, b2) {
      assert Same(x[0].value, y[0].value);
      assert forall i, j | 0 <= i < 2 && 0 <= j < 2 && x[i].key == y[j].key :: i == j;
    }
  }

  // The hashed text determines the secret, the predecessor and the body (up to key order),
  // even when a secret contains newlines.
  lemma ChainPreimageSplits(p1: string, b1: Value, s1: string, p2: string, b2: Value, s2: string)
    requires WellFormed(b1) && WellFormed(b2)
    ensures ChainPreimage(p1, b1, s1) == ChainPreimage(p2, b2, s2) <==>
            s1 == s2 && p1 == p2 && Same(b1, b2)
  {
    var m1, m2 := ChainMaterial(p1, b1), ChainMaterial(p2, b2);
    MaterialSame(p1, b1, p2, b2);
    CanonicalForm.CanonicalIffSame(m1, m2);
    CanonicalForm.CanonicalHasNoNewline(m1);
    CanonicalForm.CanonicalHasNoNewline(m2);
    if ChainPreimage(p1, b1, s1) == ChainPreimage(p2, b2, s2) {
      SplitAtLastNewline(s1, Canonicalize(m1), s2, Canonicalize(m2));
    }
  }
}
