/** Small types shared by every other module. */
module Prelude {

  datatype Option<+T> = None | Some(value: T)

  /** What encoding/json decodes into an `interface{}`. */
  datatype Json =
    | Null
    | Bool(b: bool)
    | Number(n: real)
    | Text(s: string)
    | List(items: seq<Json>)
    | Object(fields: map<string, Json>)

  /** Both `key[:len(prefix)] == prefix` in cache.go and strings.HasPrefix in reader.go. */
  predicate HasPrefix(key: string, prefix: string) {
    |key| >= |prefix| && key[..|prefix|] == prefix
  }

  predicate HasSuffix(key: string, suffix: string) {
    |key| >= |suffix| && key[|key| - |suffix|..] == suffix
  }

  /** What the two tests mean: the key is the pattern with something after it, or before it. */
  lemma HasPrefixExactly(key: string, prefix: string)
    ensures HasPrefix(key, prefix) <==> exists rest :: key == prefix + rest
  {
    if HasPrefix(key, prefix) { assert key == prefix + key[|prefix|..]; }
  }

  lemma HasSuffixExactly(key: string, suffix: string)
    ensures HasSuffix(key, suffix) <==> exists rest :: key == rest + suffix
  {
    var n := |key| - |suffix|;
    if HasSuffix(key, suffix) { assert key == key[..n] + suffix; }
    if rest :| key == rest + suffix { assert key[n..] == suffix; }
  }

  lemma PrefixesExactly(prefix: string)
    ensures forall key :: HasPrefix(key, prefix) <==> exists rest :: key == prefix + rest
  {
    forall key ensures HasPrefix(key, prefix) <==> exists rest :: key == prefix + rest {
      HasPrefixExactly(key, prefix);
    }
  }

  lemma SuffixesExactly(suffix: string)
    ensures forall key :: HasSuffix(key, suffix) <==> exists rest :: key == rest + suffix
  {
    forall key ensures HasSuffix(key, suffix) <==> exists rest :: key == rest + suffix {
      HasSuffixExactly(key, suffix);
    }
  }

  lemma SmallSet<K>(a: set<K>, b: set<K>)
    requires a <= b
    ensures |a| <= |b|
  {
    assert b == a + (b - a);
  }
}
