/**
 JSON merge patch: Apply is the MergePatch procedure of section 2 of RFC 7396, Diff is the
 patch a client builds from an original and a modified object.
 */
module MergePatch {
  import opened Json

  function Fields(t: Json): map<string, Json> {
    if t.Obj? then t.fields else map[]
  }

  function Apply(t: Json, patch: Json): Json
    decreases patch
  {
    if patch.Obj? then
      Obj(map k | k in Fields(t).Keys + patch.fields.Keys && !(k in patch.fields && patch.fields[k] == Null)
              :: if k in patch.fields then Apply(Field(t, k), patch.fields[k]) else Fields(t)[k])
    else patch
  }

  /** Only what differs: null for a key that went, the new value for one that came or changed kind. */
  function Diff(a: Json, b: Json): Json
    requires a.Obj? && b.Obj?
    decreases b
  {
    Obj(map k | k in a.fields.Keys + b.fields.Keys && Differs(a, b, k) :: DiffAt(a, b, k))
  }

  predicate Differs(a: Json, b: Json, k: string)
    requires a.Obj? && b.Obj?
  {
    (k in a.fields) != (k in b.fields) || (k in a.fields && a.fields[k] != b.fields[k])
  }

  function DiffAt(a: Json, b: Json, k: string): Json
    requires a.Obj? && b.Obj? && Differs(a, b, k)
    decreases b, 0
  {
    if k !in b.fields then Null
    else if k in a.fields && a.fields[k].Obj? && b.fields[k].Obj? then Diff(a.fields[k], b.fields[k])
    else b.fields[k]
  }

  /** No object member, at any depth of nested objects, is null. */
  ghost predicate NullFree(j: Json)
    decreases j
  {
    j.Obj? ==> forall k :: k in j.fields ==> j.fields[k] != Null && NullFree(j.fields[k])
  }

  /** Applying a null-free value to a non-object yields that value. */
  lemma {:induction false} ApplyFresh(t: Json, v: Json)
    requires !t.Obj? && NullFree(v)
    ensures Apply(t, v) == v
    decreases v
  {
    if v.Obj? {
      forall k | k in v.fields ensures Apply(Field(t, k), v.fields[k]) == v.fields[k] {
        ApplyFresh(Field(t, k), v.fields[k]);
      }
      assert Apply(t, v).fields == v.fields;
    }
  }

  /** The round trip: the patch from a to b takes a to b. */
  lemma {:induction false} RoundTrip(a: Json, b: Json)
    requires a.Obj? && b.Obj? && NullFree(b)
    ensures Apply(a, Diff(a, b)) == b
    decreases b
  {
    var p := Diff(a, b);
    forall k | k in b.fields ensures k in Apply(a, p).fields && Apply(a, p).fields[k] == b.fields[k] {
      AppliedAt(a, b, a, k);
    }
    forall k | k in Apply(a, p).fields ensures k in b.fields {
      AppliedAt(a, b, a, k);
    }
    assert Apply(a, p).fields == b.fields;
  }

  /**
   What a patch from a to b does to one key of any object c: where a and b agree c keeps its
   own value, and where they differ but c still has a's value, c gets b's.
   */
  lemma {:induction false} AppliedAt(a: Json, b: Json, c: Json, k: string)
    requires a.Obj? && b.Obj? && c.Obj? && NullFree(b)
    ensures !Differs(a, b, k) ==>
      var r := Apply(c, Diff(a, b)); (k in r.fields <==> k in c.fields) && Field(r, k) == Field(c, k)
    ensures Differs(a, b, k) && (k in c.fields <==> k in a.fields) && Field(c, k) == Field(a, k) ==>
      var r := Apply(c, Diff(a, b)); (k in r.fields <==> k in b.fields) && Field(r, k) == Field(b, k)
    decreases b, 0
  {
    if k in b.fields && Differs(a, b, k) && Field(c, k) == Field(a, k) {
      if k in a.fields && a.fields[k].Obj? && b.fields[k].Obj? {
        RoundTrip(a.fields[k], b.fields[k]);
        assert Diff(a.fields[k], b.fields[k]) != Null;
      } else if !Field(c, k).Obj? {
        ApplyFresh(Field(c, k), b.fields[k]);
      }
    }
  }

  /** The object already says what the patch says. */
  ghost predicate Satisfied(c: Json, patch: Json)
    decreases patch
  {
    if patch.Obj? then
      c.Obj? && forall k :: k in patch.fields ==>
        if patch.fields[k] == Null then k !in c.fields
        else k in c.fields && Satisfied(c.fields[k], patch.fields[k])
    else c == patch
  }

  /** The fixpoints of a patch are exactly the objects that already satisfy it. */
  lemma {:induction false} UnchangedIff(c: Json, patch: Json)
    ensures Apply(c, patch) == c <==> Satisfied(c, patch)
    decreases patch
  {
    if patch.Obj? && c.Obj? {
      forall k | k in patch.fields && k in c.fields
        ensures Apply(c.fields[k], patch.fields[k]) == c.fields[k] <==> Satisfied(c.fields[k], patch.fields[k])
      {
        UnchangedIff(c.fields[k], patch.fields[k]);
      }
      var r := Apply(c, patch).fields;
      if Satisfied(c, patch) {
        assert r.Keys == c.fields.Keys;
        assert r == c.fields;
      } else {
        var k :| k in patch.fields && !(if patch.fields[k] == Null then k !in c.fields
                                        else k in c.fields && Satisfied(c.fields[k], patch.fields[k]));
        assert patch.fields[k] == Null ==> k !in r;
        assert patch.fields[k] != Null ==> k in r && r[k] == Apply(Field(c, k), patch.fields[k]);
      }
    }
  }

  /** Whatever a patch was applied to, applying it again changes nothing. */
  lemma {:induction false} ApplyTwice(t: Json, patch: Json)
    ensures Satisfied(Apply(t, patch), patch)
    ensures Apply(Apply(t, patch), patch) == Apply(t, patch)
    decreases patch
  {
    if patch.Obj? {
      forall k | k in patch.fields && patch.fields[k] != Null
        ensures Satisfied(Apply(Field(t, k), patch.fields[k]), patch.fields[k])
      {
        ApplyTwice(Field(t, k), patch.fields[k]);
      }
    }
    UnchangedIff(Apply(t, patch), patch);
  }

  /**
   A replay from a stale original: an object that agrees with b wherever a and b differ, and is
   anything elsewhere, is left as it is.
   */
  lemma Replay(a: Json, b: Json, c: Json)
    requires a.Obj? && b.Obj? && c.Obj? && NullFree(b)
    requires forall k :: k in a.fields.Keys + b.fields.Keys && Differs(a, b, k) ==>
      (k in c.fields <==> k in b.fields) && Field(c, k) == Field(b, k)
    ensures Apply(c, Diff(a, b)) == c
  {
    RoundTrip(a, b);
    ApplyTwice(a, Diff(a, b));
    assert Satisfied(b, Diff(a, b));
    UnchangedIff(c, Diff(a, b));
  }
}
