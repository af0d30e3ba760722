/** The placeholder-image choice shared by the list item and the detail screen: the first
    keyword of an insertion-ordered `mapOf` literal found in the lower-cased title picks its
    URL; with no keyword found, the URL is a prefix followed by the product id. */
module ImageUrls {
  import opened Models
  import opened Text

  /** A `mapOf(keyword to url, ...)` literal: its entries in insertion order. */
  type ImageMap = seq<(string, string)>

  /** Entry `i` holds the first keyword, in declared order, that `text` contains. */
  predicate FirstMatch(m: ImageMap, text: string, i: int)
  {
    0 <= i < |m| && Contains(text, m[i].0) && forall j :: 0 <= j < i ==> !Contains(text, m[j].0)
  }

  /** `text` contains none of the keywords. */
  predicate NoMatch(m: ImageMap, text: string)
  {
    forall j :: 0 <= j < |m| ==> !Contains(text, m[j].0)
  }

  /** `m.keys.find { text.contains(it) }`: a key is found exactly when some key occurs, and
      the key found is the first one, in declared order, that occurs. */
  function FindKey(m: ImageMap, text: string): (r: Option<string>)
    ensures r.None? <==> NoMatch(m, text)
    ensures r.Some? ==> Contains(text, r.value)
    ensures r.Some? ==> exists i :: FirstMatch(m, text, i) && r.value == m[i].0
    decreases |m|
  {
    if m == [] then None
    else if Contains(text, m[0].0) then
      assert FirstMatch(m, text, 0);
      Some(m[0].0)
    else
      var r := FindKey(m[1..], text);
      assert forall j :: 1 <= j < |m| ==> m[j] == m[1..][j - 1];
      assert r.Some? ==> exists i :: FirstMatch(m[1..], text, i) && FirstMatch(m, text, i + 1) && r.value == m[i + 1].0;
      r
  }

  /** Entry `i` is the last entry whose key is `key`. */
  predicate LastWithKey(m: ImageMap, key: string, i: int)
  {
    0 <= i < |m| && m[i].0 == key && forall j :: i < j < |m| ==> m[j].0 != key
  }

  /** No keyword is declared twice. */
  predicate DistinctKeys(m: ImageMap)
  {
    forall i, j :: 0 <= i < j < |m| ==> m[i].0 != m[j].0
  }

  /** `m[key]`: a null key, or a key no entry has, finds nothing. A `mapOf` literal that
      repeats a key keeps the last value given for it, so the URL is that of the last entry
      with the key. */
  function Get(m: ImageMap, key: Option<string>): (r: Option<string>)
    ensures r.None? <==> key.None? || forall j :: 0 <= j < |m| ==> m[j].0 != key.value
    ensures r.Some? ==> exists i :: LastWithKey(m, key.value, i) && r.value == m[i].1
    decreases |m|
  {
    if key.None? || m == [] then None
    else
      var r := Get(m[1..], key);
      assert forall j :: 1 <= j < |m| ==> m[j] == m[1..][j - 1];
      if r.Some? then
        assert exists i :: LastWithKey(m[1..], key.value, i) && LastWithKey(m, key.value, i + 1) && r.value == m[i + 1].1;
        r
      else if m[0].0 == key.value then
        assert LastWithKey(m, key.value, 0);
        Some(m[0].1)
      else
        None
  }

  /** With no keyword repeated, looking up entry `i`'s key gives entry `i`'s URL. */
  lemma GetDistinct(m: ImageMap, i: int)
    requires DistinctKeys(m) && 0 <= i < |m|
    ensures Get(m, Some(m[i].0)) == Some(m[i].1)
  {
    var r := Get(m, Some(m[i].0));
    assert r.Some?;
    var k :| LastWithKey(m, m[i].0, k) && r.value == m[k].1;
  }

  /** `find` returns the key of the first matching entry. */
  lemma {:induction false} FindFirst(m: ImageMap, text: string, i: int)
    requires FirstMatch(m, text, i)
    ensures FindKey(m, text) == Some(m[i].0)
    decreases |m|
  {
    if i > 0 {
      assert !Contains(text, m[0].0);
      assert FirstMatch(m[1..], text, i - 1) by {
        assert forall j :: 0 <= j < i - 1 ==> m[1..][j] == m[j + 1];
      }
      FindFirst(m[1..], text, i - 1);
    }
  }

  /** Looking up the key that `find` returns gives the URL the map holds for the first
      matching keyword; with no keyword repeated, that is the first matching entry's URL. */
  lemma FindThenGet(m: ImageMap, text: string, i: int)
    requires FirstMatch(m, text, i)
    ensures Get(m, FindKey(m, text)).Some?
    ensures Get(m, FindKey(m, text)) == Get(m, Some(m[i].0))
    ensures DistinctKeys(m) ==> Get(m, FindKey(m, text)) == Some(m[i].1)
  {
    FindFirst(m, text, i);
    if DistinctKeys(m) {
      GetDistinct(m, i);
    }
  }

  /** Some key occurs, so some entry is the first match. */
  lemma {:induction false} FirstMatchExists(m: ImageMap, text: string)
    requires !NoMatch(m, text)
    ensures exists i :: FirstMatch(m, text, i)
    decreases |m|
  {
    if Contains(text, m[0].0) {
      assert FirstMatch(m, text, 0);
    } else {
      assert !NoMatch(m[1..], text) by {
        var j :| 0 <= j < |m| && Contains(text, m[j].0);
        assert m[1..][j - 1] == m[j];
      }
      FirstMatchExists(m[1..], text);
      var i :| FirstMatch(m[1..], text, i);
      assert FirstMatch(m, text, i + 1) by {
        forall j | 0 < j < i + 1 ensures !Contains(text, m[j].0) {
          assert m[j] == m[1..][j - 1];
        }
      }
    }
  }

  /** `productImageMap[keyword] ?: fallbackPrefix + id`, where `keyword` is found in the
      lower-cased title: the URL the map holds for the first matching keyword (with no keyword
      repeated, that entry's own URL), else the id-based fallback. */
  function WorkingImageUrl(m: ImageMap, fallbackPrefix: string, title: string, id: Int32): (r: string)
    ensures forall i :: FirstMatch(m, Lowercase(title), i) ==> Get(m, Some(m[i].0)) == Some(r)
    ensures DistinctKeys(m) ==> forall i :: FirstMatch(m, Lowercase(title), i) ==> r == m[i].1
    ensures NoMatch(m, Lowercase(title)) ==> r == fallbackPrefix + IntToString(id)
  {
    var text := Lowercase(title);
    forall i | FirstMatch(m, text, i)
      ensures Get(m, FindKey(m, text)) == Get(m, Some(m[i].0)) != None
      ensures DistinctKeys(m) ==> Get(m, FindKey(m, text)) == Some(m[i].1)
    {
      FindThenGet(m, text, i);
    }
    match Get(m, FindKey(m, text))
    case Some(url) => url
    case None => fallbackPrefix + IntToString(id)
  }
}
