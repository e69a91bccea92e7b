/** The response provider the chatbot consults: per-language greetings and
    reply pools, and the random pick of one reply from a pool. The tables'
    contents live outside this model; they are a parameter here. */
module Responses {

  /** A language code such as "hi-IN". */
  type LangCode = string

  /** The language the chatbot starts in. */
  const DefaultLang: LangCode := "hi-IN"

  /** The greeting table and the reply table, keyed by language code. */
  datatype Tables = Tables(greeting: map<LangCode, string>, replies: map<LangCode, seq<string>>)

  /** `c` is a language the tables can serve: it has a greeting and a
      non-empty reply pool. */
  predicate Supported(t: Tables, c: LangCode) {
    c in t.greeting && c in t.replies && |t.replies[c]| > 0
  }

  /** The tables serve at least the default language. */
  predicate WellFormed(t: Tables) {
    Supported(t, DefaultLang)
  }

  /** `Math.floor(r * len)` for a draw `r` of `Math.random()`, which lies in
      [0, 1): always an index into a pool of `len` entries. */
  function ReplyIndex(r: real, len: nat): (i: nat)
    requires 0.0 <= r < 1.0 && len > 0
    ensures i < len
  {
    var x := r * len as real;
    assert 0.0 <= x < len as real by {
      assert r * len as real < 1.0 * len as real;
    }
    x.Floor
  }

  /** Every index of the pool is drawn by some `r` in [0, 1): the pick can
      yield any reply of the pool. */
  lemma ReplyIndexReachesAll(k: nat, len: nat)
    requires k < len
    ensures 0.0 <= k as real / len as real < 1.0
    ensures ReplyIndex(k as real / len as real, len) == k
  {
  }

  /** `getLocalResponse(c)`: the reply at the drawn index of `c`'s pool; it
      is always one of that pool's replies. */
  function LocalResponse(t: Tables, c: LangCode, r: real): (reply: string)
    requires Supported(t, c) && 0.0 <= r < 1.0
    ensures reply in t.replies[c]
  {
    t.replies[c][ReplyIndex(r, |t.replies[c]|)]
  }

  /** Conversely, every reply of `c`'s pool is the pick of some draw. */
  lemma EveryReplyCanBePicked(t: Tables, c: LangCode, reply: string)
    requires Supported(t, c) && reply in t.replies[c]
    ensures exists r :: 0.0 <= r < 1.0 && LocalResponse(t, c, r) == reply
  {
    var pool := t.replies[c];
    var k :| 0 <= k < |pool| && pool[k] == reply;
    ReplyIndexReachesAll(k, |pool|);
    assert LocalResponse(t, c, k as real / |pool| as real) == reply;
  }
}
