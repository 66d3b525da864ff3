/** The address shortener of `utils/index.ts`. */
module Utils {
  import opened JsString

  /** The separator placed between the kept head and tail of an address. */
  const Ellipsis: string := "..."

  /**
   * `truncateHash`: the first five characters, "...", and the last four,
   * the way a wallet shows an account address.  Both ends are taken with
   * `substring`, so a short input is clamped rather than rejected.
   */
  function TruncateHash(hash: string): (r: string)
    ensures |r| == Min(5, |hash|) + 3 + Min(4, |hash|)
    ensures r[..Min(5, |hash|)] == hash[..Min(5, |hash|)]
    ensures r[|r| - Min(4, |hash|)..] == hash[|hash| - Min(4, |hash|)..]
    ensures r[Min(5, |hash|)..Min(5, |hash|) + 3] == Ellipsis
  {
    var head, tail := Substring(hash, 0, 5), SubstringFrom(hash, |hash| - 4);
    SubstringHead(hash, 5);
    SubstringTail(hash, 4);
    var r := head + Ellipsis + tail;
    assert r[..|head|] == head && r[|head|..|head| + 3] == Ellipsis && r[|r| - |tail|..] == tail;
    r
  }

  /** The result in closed form: head, separator, tail, with the clamping written out. */
  lemma TruncateHashClosedForm(hash: string)
    ensures TruncateHash(hash) == hash[..Min(5, |hash|)] + Ellipsis + hash[Max(0, |hash| - 4)..]
  {
  }

  /** Any address of five characters or more, such as a 42-character account, shortens to twelve. */
  lemma TruncateHashLongInput(hash: string)
    requires |hash| >= 5
    ensures |TruncateHash(hash)| == 12
  {
  }

  /** An input of four characters or fewer is kept whole on both sides of the separator. */
  lemma TruncateHashShortInput(hash: string)
    requires |hash| <= 4
    ensures TruncateHash(hash) == hash + Ellipsis + hash
  {
    assert hash[..Min(5, |hash|)] == hash;
  }
}
