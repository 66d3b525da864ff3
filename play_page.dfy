/**
 * The copy of `truncateHash` that `pages/play.tsx` exports and the profile
 * card imports.
 */
module PlayPage {
  import opened JsString
  import Utils

  /** Same expression as `Utils.TruncateHash`, declared a second time by the page. */
  function TruncateHash(hash: string): (r: string)
    ensures |r| == Min(5, |hash|) + 3 + Min(4, |hash|)
    ensures r[..Min(5, |hash|)] == hash[..Min(5, |hash|)]
    ensures r[|r| - Min(4, |hash|)..] == hash[|hash| - Min(4, |hash|)..]
    ensures r[Min(5, |hash|)..Min(5, |hash|) + 3] == "..."
  {
    var head, tail := Substring(hash, 0, 5), SubstringFrom(hash, |hash| - 4);
    SubstringHead(hash, 5);
    SubstringTail(hash, 4);
    var r := head + "..." + tail;
    assert r[..|head|] == head && r[|head|..|head| + 3] == "..." && r[|r| - |tail|..] == tail;
    r
  }

  /** The page's copy and the one in `utils/index.ts` agree on every string. */
  lemma TruncateHashCopiesAgree(hash: string)
    ensures TruncateHash(hash) == Utils.TruncateHash(hash)
  {
  }
}
