/**
 * Values shared by every handler of the back office: optional values, the
 * status-plus-body reply every API route returns, and the prefix test that
 * `String.prototype.startsWith` performs.
 */
module Common {

  datatype Option<T> = None | Some(value: T)

  /** An HTTP reply: a status with a JSON value, or a status with an error message. */
  datatype Reply<T> = Ok(status: nat, value: T) | Err(status: nat, message: string)

  /** `s.startsWith(p)`: `p` is a prefix of `s`, with no notion of path segments. */
  predicate StartsWith(s: string, p: string)
  {
    |p| <= |s| && s[..|p|] == p
  }

  /** `list.some(p => s.startsWith(p))`. */
  predicate StartsWithAny(s: string, prefixes: seq<string>)
  {
    if prefixes == [] then false
    else StartsWith(s, prefixes[0]) || StartsWithAny(s, prefixes[1..])
  }

  lemma {:induction false} StartsWithAnyIff(s: string, prefixes: seq<string>)
    ensures StartsWithAny(s, prefixes) <==> exists i :: 0 <= i < |prefixes| && StartsWith(s, prefixes[i])
  {
    if prefixes != [] {
      StartsWithAnyIff(s, prefixes[1..]);
      if StartsWithAny(s, prefixes[1..]) {
        var i :| 0 <= i < |prefixes[1..]| && StartsWith(s, prefixes[1..][i]);
        assert StartsWith(s, prefixes[i + 1]);
      }
      if exists i :: 0 <= i < |prefixes| && StartsWith(s, prefixes[i]) {
        var i :| 0 <= i < |prefixes| && StartsWith(s, prefixes[i]);
        if i > 0 {
          assert StartsWith(s, prefixes[1..][i - 1]);
        }
      }
    }
  }

  /**
   * Two prefixes of one string are comparable: the shorter is a prefix of the
   * longer. This is why a set of menu entries none of which is a prefix of
   * another can match a pathname at most once.
   */
  lemma PrefixesComparable(s: string, a: string, b: string)
    requires StartsWith(s, a) && StartsWith(s, b) && |a| <= |b|
    ensures StartsWith(b, a)
  {
    assert b[..|a|] == s[..|b|][..|a|] == s[..|a|];
  }

  /** A string that starts with `p` agrees with `p` at every position of `p`. */
  lemma PrefixChar(s: string, p: string, k: nat)
    requires k < |p|
    ensures StartsWith(s, p) ==> k < |s| && s[k] == p[k]
  {
    if StartsWith(s, p) {
      assert s[..|p|][k] == s[k];
    }
  }

  /** JavaScript truthiness of a string: every string but "" is truthy. */
  predicate Truthy(s: string)
  {
    s != ""
  }

  /** JavaScript truthiness of a number field: a missing value (None) and 0 are falsy. */
  predicate TruthyNumber(n: Option<int>)
  {
    n.Some? && n.value != 0
  }
}
