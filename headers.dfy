/**
 * Header maps as the engine builds them: `new TreeMap<>(String.CASE_INSENSITIVE_ORDER)`.
 * A map is an ordered list of (name, value) entries; a lookup or a put matches names
 * ignoring case, and a put on a name that is already present keeps the stored spelling
 * of the name and replaces only the value, as TreeMap.put does.
 */
module HeaderMaps {
  import opened Wrappers
  import opened Text

  type Headers = seq<(string, string)>

  /** Entry `i` is the first whose name equals `name` ignoring case. */
  predicate FirstMatchAt(h: Headers, name: string, i: int) {
    0 <= i < |h| && EqualsIgnoreCase(h[i].0, name) &&
    forall j :: 0 <= j < i ==> !EqualsIgnoreCase(h[j].0, name)
  }

  /** No two names are equal ignoring case: the shape of every case-insensitive map. */
  predicate CaseInsensitiveKeys(h: Headers) {
    forall i, j :: 0 <= i < j < |h| ==> !EqualsIgnoreCase(h[i].0, h[j].0)
  }

  /** `get(name)`: the value of the first entry whose name equals `name` ignoring case. */
  function Lookup(h: Headers, name: string): (r: Option<string>)
    ensures r.Some? <==> exists i :: 0 <= i < |h| && EqualsIgnoreCase(h[i].0, name)
    ensures r.Some? ==> exists i :: FirstMatchAt(h, name, i) && r.value == h[i].1
  {
    if |h| == 0 then None
    else if EqualsIgnoreCase(h[0].0, name) then
      assert FirstMatchAt(h, name, 0);
      Some(h[0].1)
    else
      var r := Lookup(h[1..], name);
      if r.Some? then
        var k :| FirstMatchAt(h[1..], name, k) && r.value == h[1..][k].1;
        assert FirstMatchAt(h, name, k + 1);
        r
      else
        r
  }

  /** `put(name, value)` on a case-insensitive map. */
  function Put(h: Headers, name: string, value: string): (r: Headers)
    ensures |r| == |h| || |r| == |h| + 1
    ensures |r| == |h| <==> exists i :: 0 <= i < |h| && EqualsIgnoreCase(h[i].0, name)
  {
    if |h| == 0 then [(name, value)]
    else if EqualsIgnoreCase(h[0].0, name) then [(h[0].0, value)] + h[1..]
    else [h[0]] + Put(h[1..], name, value)
  }

  /** The value the last entry named `name` (ignoring case) gives, as a series of puts leaves it. */
  function LookupLast(h: Headers, name: string): (r: Option<string>)
  {
    if |h| == 0 then None
    else
      var rest := LookupLast(h[1..], name);
      if rest.Some? then rest
      else if EqualsIgnoreCase(h[0].0, name) then Some(h[0].1)
      else None
  }

  /** `putAll(src)`, or a loop of puts over `src`: the entries of `src` are put in order. */
  function PutAll(h: Headers, src: Headers): (r: Headers)
    ensures |h| <= |r| <= |h| + |src|
    decreases |src|
  {
    if |src| == 0 then h else PutAll(Put(h, src[0].0, src[0].1), src[1..])
  }

  /** After a put, the name put (in any spelling) gives the new value and every other name is unaffected. */
  lemma {:induction false} LookupPut(h: Headers, name: string, value: string, other: string)
    ensures Lookup(Put(h, name, value), other) ==
            if EqualsIgnoreCase(name, other) then Some(value) else Lookup(h, other)
  {
    if |h| > 0 && !EqualsIgnoreCase(h[0].0, name) {
      LookupPut(h[1..], name, value, other);
      assert Put(h, name, value)[1..] == Put(h[1..], name, value);
    }
  }

  /** A put keeps the names pairwise distinct ignoring case. */
  lemma {:induction false} PutKeepsKeysDistinct(h: Headers, name: string, value: string)
    requires CaseInsensitiveKeys(h)
    ensures CaseInsensitiveKeys(Put(h, name, value))
    ensures forall i :: 0 <= i < |Put(h, name, value)| ==>
      EqualsIgnoreCase(Put(h, name, value)[i].0, name) || exists j :: 0 <= j < |h| && Put(h, name, value)[i].0 == h[j].0
  {
    if |h| > 0 && !EqualsIgnoreCase(h[0].0, name) {
      PutKeepsKeysDistinct(h[1..], name, value);
      var r := Put(h, name, value);
      forall i | 0 <= i < |r|
        ensures EqualsIgnoreCase(r[i].0, name) || exists j :: 0 <= j < |h| && r[i].0 == h[j].0
      {
        if i > 0 {
          assert r[i] == Put(h[1..], name, value)[i - 1];
          if !EqualsIgnoreCase(r[i].0, name) {
            var j :| 0 <= j < |h[1..]| && r[i].0 == h[1..][j].0;
            assert r[i].0 == h[j + 1].0;
          }
        }
      }
    }
  }

  /** Putting all of `src` into `h`: names that `src` mentions take its last value, others keep theirs. */
  lemma {:induction false} LookupPutAll(h: Headers, src: Headers, name: string)
    ensures Lookup(PutAll(h, src), name) ==
            if LookupLast(src, name).Some? then LookupLast(src, name) else Lookup(h, name)
    decreases |src|
  {
    if |src| > 0 {
      LookupPutAll(Put(h, src[0].0, src[0].1), src[1..], name);
      LookupPut(h, src[0].0, src[0].1, name);
    }
  }

  lemma {:induction false} PutAllKeepsKeysDistinct(h: Headers, src: Headers)
    requires CaseInsensitiveKeys(h)
    ensures CaseInsensitiveKeys(PutAll(h, src))
    decreases |src|
  {
    if |src| > 0 {
      PutKeepsKeysDistinct(h, src[0].0, src[0].1);
      PutAllKeepsKeysDistinct(Put(h, src[0].0, src[0].1), src[1..]);
    }
  }

  /** Putting entries one at a time from the front: the last put happens last. */
  lemma {:induction false} PutAllSnoc(h: Headers, src: Headers, e: (string, string))
    ensures PutAll(h, src + [e]) == Put(PutAll(h, src), e.0, e.1)
    decreases |src|
  {
    if |src| > 0 {
      assert (src + [e])[1..] == src[1..] + [e];
      PutAllSnoc(Put(h, src[0].0, src[0].1), src[1..], e);
    }
  }

  /** In a map whose names are distinct ignoring case, the first and the last match are the same entry. */
  lemma {:induction false} LookupLastOfDistinctKeys(h: Headers, name: string)
    requires CaseInsensitiveKeys(h)
    ensures LookupLast(h, name) == Lookup(h, name)
  {
    if |h| > 0 {
      LookupLastOfDistinctKeys(h[1..], name);
      if EqualsIgnoreCase(h[0].0, name) {
        forall i | 0 <= i < |h[1..]| ensures !EqualsIgnoreCase(h[1..][i].0, name) {
          assert !EqualsIgnoreCase(h[0].0, h[i + 1].0);
        }
      }
    }
  }

  /** A put of a name that no entry has (ignoring case) appends it. */
  lemma {:induction false} PutNewName(h: Headers, name: string, value: string)
    requires forall i :: 0 <= i < |h| ==> !EqualsIgnoreCase(h[i].0, name)
    ensures Put(h, name, value) == h + [(name, value)]
  {
    if |h| > 0 {
      PutNewName(h[1..], name, value);
      assert [h[0]] + (h[1..] + [(name, value)]) == h + [(name, value)];
    }
  }

  /** Copying a case-insensitive map entry by entry into an empty one reproduces it exactly. */
  lemma {:induction false} CopyOfDistinctKeys(acc: Headers, src: Headers)
    requires CaseInsensitiveKeys(acc + src)
    ensures PutAll(acc, src) == acc + src
    decreases |src|
  {
    if |src| > 0 {
      forall i | 0 <= i < |acc| ensures !EqualsIgnoreCase(acc[i].0, src[0].0) {
        assert (acc + src)[i] == acc[i] && (acc + src)[|acc|] == src[0];
      }
      PutNewName(acc, src[0].0, src[0].1);
      assert acc + [src[0]] + src[1..] == acc + src;
      CopyOfDistinctKeys(acc + [src[0]], src[1..]);
    }
  }
}
