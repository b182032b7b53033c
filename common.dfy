/** Values shared by the screens and the session context of the EducaHub client:
    optional values, the outcome of one HTTP exchange, the Post record, and the
    "order-preserving subsequence" relation used to describe list filters. */
module Common {

  datatype Option<+T> = None | Some(value: T)

  /** What one `fetch(...)` followed by `response.json()` produced, as seen by
      the code that awaited it: the request (or the parse of its body) threw,
      the server answered with a status outside 2xx (with the `message` field of
      its error body, if there was one), or it answered ok with a parsed body. */
  datatype Response<+T> = Threw | NotOk(message: Option<string>) | Ok(body: T)

  /** JavaScript truthiness of a string: only the empty string is falsy. */
  predicate Truthy(s: string)
    ensures Truthy(s) <==> |s| > 0
  {
    s != ""
  }

  type PostId = int

  /** A post as the API returns it. The list screen reads `categoryName`; the
      profile screen reads `categoryId`. */
  datatype Post = Post(id: PostId, title: string, content: string, categoryId: string, categoryName: string)

  /** `r` is obtained from `s` by deleting elements: nothing added, nothing
      duplicated, nothing reordered. */
  predicate IsSubsequence<T(==)>(r: seq<T>, s: seq<T>)
    decreases |s|
  {
    if r == [] then true
    else if s == [] then false
    else if r[0] == s[0] then IsSubsequence(r[1..], s[1..])
    else IsSubsequence(r, s[1..])
  }

  lemma {:induction false} SubsequenceReflexive<T>(s: seq<T>)
    ensures IsSubsequence(s, s)
    decreases |s|
  {
    if s != [] {
      SubsequenceReflexive(s[1..]);
    }
  }

  /** A subsequence holds no element its source lacks, and is no longer. */
  lemma {:induction false} SubsequenceMembers<T>(r: seq<T>, s: seq<T>)
    requires IsSubsequence(r, s)
    ensures |r| <= |s|
    ensures forall x :: x in r ==> x in s
    decreases |s|
  {
    if r != [] {
      if r[0] == s[0] {
        SubsequenceMembers(r[1..], s[1..]);
        assert forall x :: x in r ==> x == r[0] || x in r[1..];
      } else {
        SubsequenceMembers(r, s[1..]);
      }
    }
  }

  /** Dropping the first element of a subsequence keeps it a subsequence. */
  lemma {:induction false} SubsequenceDropFirst<T>(r: seq<T>, s: seq<T>)
    requires r != [] && IsSubsequence(r, s)
    ensures IsSubsequence(r[1..], s)
    decreases |s|, 1
  {
    if r[0] != s[0] {
      SubsequenceDropFirst(r, s[1..]);
    }
    SubsequenceExtendSource(r[1..], s);
  }

  /** A subsequence of the tail of `s` is a subsequence of `s`. */
  lemma {:induction false} SubsequenceExtendSource<T>(r: seq<T>, s: seq<T>)
    requires s != [] && IsSubsequence(r, s[1..])
    ensures IsSubsequence(r, s)
    decreases |s|, 0
  {
    if r != [] && r[0] == s[0] {
      SubsequenceDropFirst(r, s[1..]);
    }
  }

  lemma {:induction false} SubsequenceTransitive<T>(a: seq<T>, b: seq<T>, c: seq<T>)
    requires IsSubsequence(a, b) && IsSubsequence(b, c)
    ensures IsSubsequence(a, c)
    decreases |c|
  {
    if a != [] {
      if b[0] == c[0] {
        if a[0] == b[0] {
          SubsequenceTransitive(a[1..], b[1..], c[1..]);
        } else {
          SubsequenceTransitive(a, b[1..], c[1..]);
          assert a[0] != c[0];
        }
      } else {
        SubsequenceTransitive(a, b, c[1..]);
        if a[0] == c[0] {
          SubsequenceDropFirst(a, c[1..]);
        }
      }
    }
  }
}
