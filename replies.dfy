/**
 * Reply shaping shared by the four platform bots (the `bot.py` of each service):
 * cutting a long reply into fixed-size slices, the `...` preview of a
 * prompt, the first-five listing of search results, and the shape of the
 * conversation ids, which keeps the users of one shared `ChatClient`
 * apart.
 */
module Replies {
  import opened Wrappers
  import opened Text
  import opened Conversations
  import opened Engine
  import opened Catalog

  /** What a handler leaves behind: the conversation table after its engine
      calls, and what it sent, in order. */
  datatype Outcome<S> = Outcome(table: Table, sends: seq<S>)

  function Min(a: nat, b: nat): nat {
    if a <= b then a else b
  }

  // ------------------------------------------------------------ slicing

  /** `[s[i:i+n] for i in range(0, len(s), n)]`: consecutive slices of at
      most `n` characters. */
  function Slices(s: string, n: nat): seq<string>
    requires n > 0
    decreases |s|
  {
    if s == [] then [] else [Take(s, n)] + Slices(s[|Take(s, n)|..], n)
  }

  /** The slices put together give back `s`, none is empty, none is
      longer than `n`, and only the last one may be shorter. */
  lemma {:induction false} SlicesShape(s: string, n: nat)
    requires n > 0
    ensures Concat(Slices(s, n)) == s
    ensures Slices(s, n) == [] <==> s == []
    ensures forall i | 0 <= i < |Slices(s, n)| :: 0 < |Slices(s, n)[i]| <= n
    ensures forall i | 0 <= i < |Slices(s, n)| - 1 :: |Slices(s, n)[i]| == n
    decreases |s|
  {
    if s != [] {
      var t := Take(s, n);
      SlicesShape(s[|t|..], n);
      var r := Slices(s, n);
      assert r == [t] + Slices(s[|t|..], n);
      assert r[1..] == Slices(s[|t|..], n);
      assert Concat(r) == t + Concat(Slices(s[|t|..], n));
      assert s == t + s[|t|..];
      forall i | 0 <= i < |r| - 1 ensures |r[i]| == n {
        if i == 0 {
          assert s[|t|..] != [];
        } else {
          assert r[i] == Slices(s[|t|..], n)[i - 1];
        }
      }
    }
  }

  /** Slice `i` is exactly `s[i*n:i*n+n]`: the definition the
      comprehension uses. */
  lemma {:induction false} SliceAt(s: string, n: nat, i: nat)
    requires n > 0 && i < |Slices(s, n)|
    ensures i * n < |s|
    ensures Slices(s, n)[i] == Take(s[i * n..], n)
    decreases i
  {
    if i > 0 {
      SlicesTail(s, n);
      var rest := s[n..];
      assert Slices(s, n)[i] == Slices(rest, n)[i - 1];
      SliceAt(rest, n, i - 1);
      var k := (i - 1) * n;
      NextMultiple(i, n);
      assert rest[k..] == s[k + n..];
    } else {
      assert s != [];
      assert s[0 * n..] == s;
    }
  }

  /** Past the first slice, the slices are those of the rest. */
  lemma SlicesTail(s: string, n: nat)
    requires n > 0 && |Slices(s, n)| > 1
    ensures n < |s| && Slices(s, n)[1..] == Slices(s[n..], n)
  {
    SlicesShape(s, n);
    assert |Take(s, n)| == n by {
      assert Slices(s, n)[0] == Take(s, n);
    }
  }

  /** The slices from position `i` on: the slice starting at `i`, then the
      slices from where it ends. */
  lemma SlicesFrom(s: string, n: nat, i: nat)
    requires n > 0 && i < |s|
    ensures Slices(s[i..], n) == [s[i..Min(i + n, |s|)]] + Slices(s[Min(i + n, |s|)..], n)
  {
    var rest := s[i..];
    assert Take(rest, n) == s[i..Min(i + n, |s|)];
    assert rest[|Take(rest, n)|..] == s[Min(i + n, |s|)..];
  }

  lemma NextMultiple(i: nat, n: nat)
    requires i > 0
    ensures (i - 1) * n + n == i * n
  {
  }

  /** The chunking all bots share: a reply longer than `limit` is sent as
      its slices, anything else once and unchanged. Either way the parts
      put together are the reply, and no part exceeds the limit unless it
      is the whole reply. */
  function Chunked(s: string, limit: nat): (r: seq<string>)
    requires limit > 0
    ensures Concat(r) == s
    ensures |s| <= limit ==> r == [s]
    ensures |s| > limit ==> |r| >= 2 && (forall i | 0 <= i < |r| :: 0 < |r[i]| <= limit)
                            && (forall i | 0 <= i < |r| - 1 :: |r[i]| == limit)
  {
    if |s| > limit then
      var r := Slices(s, limit);
      SlicesShape(s, limit);
      SlicesShape(s[limit..], limit);
      assert |r[0]| == limit by { assert r[0] == Take(s, limit); }
      assert |r| >= 2 by {
        assert r == [Take(s, limit)] + Slices(s[limit..], limit);
        assert Slices(s[limit..], limit) != [];
      }
      r
    else
      assert Concat([s]) == s + Concat([]);
      [s]
  }

  // ------------------------------------------------------------ previews

  const Ellipsis := "..."

  /** `s[:n] + "..." if len(s) > n else s`. */
  function Preview(s: string, n: nat): (r: string)
    ensures |s| <= n ==> r == s
    ensures |s| > n ==> |r| == n + 3 && r[..n] == s[..n] && r[n..] == Ellipsis
  {
    if |s| > n then s[..n] + Ellipsis else s
  }

  /** The other spelling used by the Telegram bot:
      `s[:n] + ("..." if len(s) > n else "")`. */
  function PreviewAppended(s: string, n: nat): string {
    Take(s, n) + (if |s| > n then Ellipsis else "")
  }

  /** Both spellings give the same text. */
  lemma PreviewSpellingsAgree(s: string, n: nat)
    ensures PreviewAppended(s, n) == Preview(s, n)
  {
    if |s| <= n {
      assert Take(s, n) + "" == s;
    }
  }

  // ------------------------------------------------------------ listings

  const ListingSize := 5

  /** One search result as the bots show it, from `enumerate(prompts[:5], 1)`. */
  datatype Listed = Listed(number: nat, title: string, id: string, description: string)

  /** `prompt.get("title", "Untitled")`, `prompt.get("id", "")` and
      `prompt.get("description", "")[:cut]`. */
  function ListedOf(number: nat, p: Prompt, cut: nat): Listed {
    Listed(number, FieldOr(p, "title", "Untitled"), FieldOr(p, "id", ""), Take(FieldOr(p, "description", ""), cut))
  }

  /** `enumerate(ps, first)`: each entry shown by `show` with its number,
      the numbers running on from `first`. */
  function Enumerate(ps: seq<Prompt>, first: nat, show: (nat, Prompt) -> Listed): (r: seq<Listed>)
    ensures |r| == |ps|
    ensures forall i | 0 <= i < |r| :: r[i] == show(first + i, ps[i])
    decreases |ps|
  {
    if ps == [] then [] else [show(first, ps[0])] + Enumerate(ps[1..], first + 1, show)
  }

  /** The search listing: only the first five results, in the catalog's
      order, numbered from 1, each description cut to `cut` characters. */
  function Listing(prompts: seq<Prompt>, cut: nat): (r: seq<Listed>)
    ensures |r| == Min(|prompts|, ListingSize)
    ensures forall i | 0 <= i < |r| :: r[i] == ListedOf(i + 1, prompts[i], cut)
  {
    Enumerate(prompts[..Min(|prompts|, ListingSize)], 1, (number: nat, p: Prompt) => ListedOf(number, p, cut))
  }

  /** The texts of a listing, one per entry, in order, as `render` shows them. */
  function Rendered(ls: seq<Listed>, render: Listed -> string): (r: seq<string>)
    ensures |r| == |ls| && forall i | 0 <= i < |ls| :: r[i] == render(ls[i])
  {
    seq(|ls|, i requires 0 <= i < |ls| => render(ls[i]))
  }

  /** Showing one more entry appends exactly its text: what a loop of
      `response += ...` over the listing relies on. */
  lemma RenderedAppend(ls: seq<Listed>, l: Listed, render: Listed -> string)
    ensures Concat(Rendered(ls + [l], render)) == Concat(Rendered(ls, render)) + render(l)
  {
    assert Rendered(ls + [l], render) == Rendered(ls, render) + [render(l)];
    ConcatAppend(Rendered(ls, render), [render(l)]);
    assert Concat([render(l)]) == render(l) + Concat([]);
  }

  /** After a header, the text of the first `i + 1` entries is the text of
      the first `i` followed by entry `i`: the step of every loop that
      appends entry texts to a header. */
  lemma RenderedPrefixStep(header: string, ls: seq<Listed>, i: nat, render: Listed -> string)
    requires i < |ls|
    ensures header + Concat(Rendered(ls[..i + 1], render))
         == header + Concat(Rendered(ls[..i], render)) + render(ls[i])
  {
    assert ls[..i + 1] == ls[..i] + [ls[i]];
    RenderedAppend(ls[..i], ls[i], render);
  }

  /** The `response = header; for ...: response += entry; response += footer`
      loop both text bots run over a listing. */
  method BuildListing(header: string, ls: seq<Listed>, render: Listed -> string, footer: string)
    returns (response: string)
    ensures response == header + Concat(Rendered(ls, render)) + footer
  {
    response := header;
    for i := 0 to |ls|
      invariant response == header + Concat(Rendered(ls[..i], render))
    {
      RenderedPrefixStep(header, ls, i, render);
      response := response + render(ls[i]);
    }
    assert ls[..|ls|] == ls;
    response := response + footer;
  }

  // ------------------------------------------------------------ prompts

  /** The "set the prompt, then clear" sequence of every `/prompt` and
      successful `/load` handler: afterwards the conversation holds the new
      prompt and no history, whether or not it existed, and every other
      conversation is as it was. */
  function SetThenClear(t: Table, cfg: Settings, id: string, prompt: string): (r: Table)
    ensures r.Keys == t.Keys + {id}
    ensures r[id] == ConvState([], prompt)
    ensures forall k | k in t && k != id :: r[k] == t[k]
  {
    Cleared(WithSystemPrompt(t, cfg, id, prompt), id)
  }

  /** A loaded prompt is applied only when it is a non-empty text (`if system_prompt:`). */
  predicate Usable(loaded: Option<string>) {
    loaded.Some? && loaded.value != ""
  }

  // ------------------------------------------------------------ ids

  predicate NoUnderscore(s: string) {
    forall i | 0 <= i < |s| :: s[i] != '_'
  }

  /** The id shape `prefix + a + "_" + b` all bots use. */
  function PairId(prefix: string, a: string, b: string): string {
    prefix + a + "_" + b
  }

  /** The position of the first `_` at or after `from`, or `|s|`. */
  function UnderscoreFrom(s: string, from: nat): (k: nat)
    requires from <= |s|
    ensures from <= k <= |s|
    decreases |s| - from
  {
    if from == |s| || s[from] == '_' then from else UnderscoreFrom(s, from + 1)
  }

  lemma {:induction false} UnderscoreAfterFirst(prefix: string, a: string, b: string, from: nat)
    requires NoUnderscore(a) && |prefix| <= from <= |prefix| + |a|
    ensures UnderscoreFrom(PairId(prefix, a, b), from) == |prefix| + |a|
    decreases |prefix| + |a| - from
  {
    var s := PairId(prefix, a, b);
    if from < |prefix| + |a| {
      assert s[from] == a[from - |prefix|];
      UnderscoreAfterFirst(prefix, a, b, from + 1);
    } else {
      assert s[from] == '_';
    }
  }

  /** When the first part never holds `_`, the id determines both parts,
      so two different (first, second) pairs never share a conversation. */
  lemma PairIdInjective(prefix: string, a1: string, b1: string, a2: string, b2: string)
    requires NoUnderscore(a1) && NoUnderscore(a2)
    requires PairId(prefix, a1, b1) == PairId(prefix, a2, b2)
    ensures a1 == a2 && b1 == b2
  {
    var s := PairId(prefix, a1, b1);
    var p := |prefix|;
    UnderscoreAfterFirst(prefix, a1, b1, p);
    UnderscoreAfterFirst(prefix, a2, b2, p);
    assert |a1| == |a2|;
    assert a1 == s[p .. p + |a1|] == a2;
    assert b1 == s[p + |a1| + 1 ..] == b2;
  }
}
