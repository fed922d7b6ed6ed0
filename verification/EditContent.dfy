/**
 Putting an edit's text where a message's real content sits: inside up to five wrappers, each of which keeps
 its own fields and its siblings.
 */
module EditContent {
  import opened Wrappers

  const WRAPPER_KEYS := 9     // in the order both walks try them
  const MAX_DEPTH := 5

  datatype Wrapper = Wrapper(message: Option<Content>, rest: string)
  // `body` is everything on a message that is not one of the wrapper keys: text, media, context.
  datatype Content = Content(wrappers: map<nat, Wrapper>, body: string)

  function FirstKey(c: Content, from: nat): (k: Option<nat>)
    ensures k.Some? ==> from <= k.value < WRAPPER_KEYS && k.value in c.wrappers
    ensures forall i | from <= i < (if k.Some? then k.value else WRAPPER_KEYS) :: i !in c.wrappers
    decreases WRAPPER_KEYS - from
  {
    if from >= WRAPPER_KEYS then None
    else if from in c.wrappers then Some(from)
    else FirstKey(c, from + 1)
  }

  function KeyOf(c: Content): Option<nat> {
    FirstKey(c, 0)
  }

  function Empty(): Content { Content(map[], "") }

  function Unwrapped(c: Content, k: nat): Content
    requires k in c.wrappers
  {
    if c.wrappers[k].message.Some? then c.wrappers[k].message.value else Empty()
  }

  function Rewrapped(c: Content, k: nat, inner: Content): Content
    requires k in c.wrappers
  {
    c.(wrappers := c.wrappers[k := c.wrappers[k].(message := Some(inner))])
  }

  // The walk's content, `depth` wrappers at most.
  function Inner(c: Content, depth: nat): Content
    decreases depth
  {
    if depth == 0 || KeyOf(c).None? then c else Inner(Unwrapped(c, KeyOf(c).value), depth - 1)
  }

  // The outer message with `replacement` where its walk ends.
  function Replaced(c: Content, replacement: Content, depth: nat): Content
    decreases depth
  {
    if depth == 0 || KeyOf(c).None? then replacement
    else Rewrapped(c, KeyOf(c).value, Replaced(Unwrapped(c, KeyOf(c).value), replacement, depth - 1))
  }

  // What surrounds the content: per wrapper passed, which it was, its own fields, and everything beside it.
  datatype Layer = Layer(key: nat, rest: string, siblings: map<nat, Wrapper>, body: string)

  function Layers(c: Content, depth: nat): seq<Layer>
    decreases depth
  {
    if depth == 0 || KeyOf(c).None? then []
    else
      var k := KeyOf(c).value;
      [Layer(k, c.wrappers[k].rest, c.wrappers - {k}, c.body)] + Layers(Unwrapped(c, k), depth - 1)
  }

  lemma RewrappedWalk(c: Content, inner: Content)
    requires KeyOf(c).Some?
    ensures var r := Rewrapped(c, KeyOf(c).value, inner);
            && KeyOf(r) == KeyOf(c) && Unwrapped(r, KeyOf(c).value) == inner
            && r.wrappers[KeyOf(c).value].rest == c.wrappers[KeyOf(c).value].rest
            && r.wrappers - {KeyOf(c).value} == c.wrappers - {KeyOf(c).value} && r.body == c.body
  {
  }

  /**
   The edited message keeps every wrapper on the way in, with its fields and siblings, and its walk then finds
   the edit; a second edit replaces the first as if that had never been.
   */
  lemma {:induction false} ReplacementKeepsWrappers(c: Content, replacement: Content, depth: nat)
    requires KeyOf(replacement).None?
    ensures var r := Replaced(c, replacement, depth);
            Inner(r, depth) == replacement && Layers(r, depth) == Layers(c, depth)
    decreases depth
  {
    if depth > 0 && KeyOf(c).Some? {
      var k := KeyOf(c).value;
      ReplacementKeepsWrappers(Unwrapped(c, k), replacement, depth - 1);
      RewrappedWalk(c, Replaced(Unwrapped(c, k), replacement, depth - 1));
    }
  }

  // A content with these layers put around it, the first outermost.
  function Assembled(layers: seq<Layer>, inner: Content): Content {
    if layers == [] then inner
    else
      var l := layers[0];
      Content(l.siblings[l.key := Wrapper(Some(Assembled(layers[1..], inner)), l.rest)], l.body)
  }

  /** So the edited message is, to the letter, what surrounded the content with the edit in its place. */
  lemma {:induction false} EditedIsAssembled(c: Content, replacement: Content, depth: nat)
    ensures Replaced(c, replacement, depth) == Assembled(Layers(c, depth), replacement)
    ensures |Layers(c, depth)| <= depth && (|Layers(c, depth)| < depth ==> KeyOf(Inner(c, depth)).None?)
    decreases depth
  {
    if depth > 0 && KeyOf(c).Some? {
      var k := KeyOf(c).value;
      EditedIsAssembled(Unwrapped(c, k), replacement, depth - 1);
      var inner := Replaced(Unwrapped(c, k), replacement, depth - 1);
      assert Layers(c, depth)[1..] == Layers(Unwrapped(c, k), depth - 1);
      assert (c.wrappers - {k})[k := Wrapper(Some(inner), c.wrappers[k].rest)] == Rewrapped(c, k, inner).wrappers;
    }
  }

  /** The walk goes through at most five wrappers, and stops before that only where there is none. */
  lemma FiveWrappersAtMost(c: Content)
    ensures |Layers(c, MAX_DEPTH)| <= 5
    ensures |Layers(c, MAX_DEPTH)| < 5 ==> KeyOf(Inner(c, MAX_DEPTH)).None?
  {
    var depth := MAX_DEPTH;
    EditedIsAssembled(c, Empty(), depth);
  }

  lemma {:induction false} LaterEditReplaces(c: Content, first: Content, second: Content, depth: nat)
    requires KeyOf(first).None?
    ensures Replaced(Replaced(c, first, depth), second, depth) == Replaced(c, second, depth)
    decreases depth
  {
    if depth > 0 && KeyOf(c).Some? {
      var k := KeyOf(c).value;
      LaterEditReplaces(Unwrapped(c, k), first, second, depth - 1);
      RewrappedWalk(c, Replaced(Unwrapped(c, k), first, depth - 1));
    }
  }

  // Putting an inner content back through the wrappers a walk has passed, innermost last.
  function Rebuilt(path: seq<Content>, inner: Content): Content
    requires forall c | c in path :: KeyOf(c).Some?
    decreases |path|
  {
    if path == [] then inner
    else Rebuilt(path[..|path| - 1], Rewrapped(path[|path| - 1], KeyOf(path[|path| - 1]).value, inner))
  }

  /** The walk itself: at most five wrappers in, then the content replaced and everything around it put back. */
  method ReplaceInnerContent(outer: Option<Content>, replacement: Content) returns (r: Content)
    ensures r == if outer.None? then replacement else Replaced(outer.value, replacement, MAX_DEPTH)
  {
    if outer.None? {
      return replacement;
    }
    var content := outer.value;
    var path: seq<Content> := [];
    var depth := 0;
    var key := KeyOf(content);
    while depth < MAX_DEPTH && key.Some?
      invariant 0 <= depth <= MAX_DEPTH && |path| == depth && key == KeyOf(content)
      invariant forall c | c in path :: KeyOf(c).Some?
      invariant Replaced(outer.value, replacement, MAX_DEPTH) ==
                Rebuilt(path, Replaced(content, replacement, MAX_DEPTH - depth))
    {
      ghost var was, left := path, MAX_DEPTH - depth;
      assert Replaced(content, replacement, left)
          == Rewrapped(content, key.value, Replaced(Unwrapped(content, key.value), replacement, left - 1));
      path := path + [content];
      assert path[..|path| - 1] == was;
      content := Unwrapped(content, key.value);
      key := KeyOf(content);
      depth := depth + 1;
    }
    // Assigning the deepest wrapper's message, seen from the outside in.
    r := replacement;
    while path != []
      invariant forall c | c in path :: KeyOf(c).Some?
      invariant Replaced(outer.value, replacement, MAX_DEPTH) == Rebuilt(path, r)
    {
      var last := path[|path| - 1];
      r := Rewrapped(last, KeyOf(last).value, r);
      path := path[..|path| - 1];
    }
  }
}
