/**
 * Navigation sync: the page title and URL fragment derived from the open
 * product, and the parsing of the address hash back into a product id at
 * startup.
 */
module Navigation {
  import opened Wrappers
  import opened Cart

  /** The title shown when no product is open or the open product has no name. */
  const FallbackTitle: string := "Techno"

  /** `this.produto.nome || "Techno"`: an empty name is falsy and falls back too. */
  function Title(sel: Selection): (t: string)
    ensures sel.Open? && sel.product.nome != "" ==> t == sel.product.nome
    ensures sel.Closed? || sel.product.nome == "" ==> t == FallbackTitle
    ensures t != ""
  {
    if sel.Open? && sel.product.nome != "" then sel.product.nome else FallbackTitle
  }

  /** `this.produto.id || ""`: the open product's id, or empty when none is open. */
  function HashTarget(sel: Selection): (h: string)
    ensures sel.Open? ==> h == sel.product.id
    ensures h == "" <==> sel.Closed? || sel.product.id == ""
  {
    if sel.Open? then sel.product.id else ""
  }

  /** The URL handed to `history.pushState`: `#` followed by the hash target. */
  function PushedUrl(sel: Selection): (url: string)
    ensures |url| >= 1 && url[0] == '#'
    ensures url[1..] == HashTarget(sel)
  {
    "#" + HashTarget(sel)
  }

  /**
   * What `document.location.hash` reads for a URL whose fragment is
   * `fragment`: empty for an empty fragment, otherwise `#` and the fragment.
   */
  function LocationHash(fragment: string): (h: string)
    ensures h == "" <==> fragment == ""
    ensures h != "" ==> h[0] == '#' && h[1..] == fragment
  {
    if fragment == "" then "" else "#" + fragment
  }

  /** The position of the first `c` in `s`, or `|s|` when there is none. */
  function FirstIndex(s: string, c: char): (k: nat)
    ensures k <= |s|
    ensures k < |s| ==> s[k] == c
    ensures forall j :: 0 <= j < k ==> s[j] != c
  {
    if s == [] then 0 else if s[0] == c then 0 else 1 + FirstIndex(s[1..], c)
  }

  /** `s.replace(c, "")` with a one-character pattern: only the first occurrence goes. */
  function RemoveFirst(s: string, c: char): (r: string)
    ensures FirstIndex(s, c) == |s| ==> r == s
    ensures FirstIndex(s, c) < |s| ==> r == s[..FirstIndex(s, c)] + s[FirstIndex(s, c) + 1..]
  {
    if s == [] then []
    else if s[0] == c then s[1..]
    else
      var tail := s[1..];
      var r' := RemoveFirst(tail, c);
      assert FirstIndex(tail, c) < |tail| ==> [s[0]] + tail[..FirstIndex(tail, c)] == s[..FirstIndex(s, c)];
      [s[0]] + r'
  }

  /**
   * The `router` method: an empty hash requests nothing; otherwise the id to
   * load is the hash with its first `#` removed.
   */
  function ParseHash(hash: string): (request: Option<string>)
    ensures request.None? <==> hash == ""
    ensures hash != "" && hash[0] == '#' ==> request == Some(hash[1..])
  {
    if hash == "" then None else Some(RemoveFirst(hash, '#'))
  }

  /**
   * The fragment the `produto` watcher writes parses back, through
   * `location.hash` and `router`, to the open product's id when that id is
   * non-empty, and to no request when no product is open or the id is empty.
   * The fragment is taken to hold the id as it is: ids are assumed URL-safe,
   * so the URL's percent-encoding does not arise.
   */
  lemma {:induction false} RouterInvertsWatcher(sel: Selection)
    ensures ParseHash(LocationHash(HashTarget(sel)))
         == if sel.Open? && sel.product.id != "" then Some(sel.product.id) else None
  {
  }
}
