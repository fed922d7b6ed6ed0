/**
 The text forms an idempotency key can hold, and how a reader tells them apart.
 Strings are the JavaScript strings of withIdempotency.ts, one char per UTF-16 unit.
 */
module IdempotencyMarkers {
  import opened Wrappers

  const PROCESSING := "processing"
  const PROCESSING_PREFIX := "processing:"
  const INDETERMINATE_PREFIX := "indeterminate:"

  datatype Holder = Holder(instanceId: string, incarnationId: Option<string>)

  function ProcessingValue(instanceId: string, incarnationId: string): string {
    PROCESSING_PREFIX + instanceId + "#" + incarnationId
  }

  function Digit36(d: nat): (c: char)
    requires d < 36
    ensures c != '#'
  {
    if d < 10 then '0' + d as char else 'a' + (d - 10) as char
  }

  // Number.prototype.toString(36) on a non-negative integer.
  function Base36(n: nat): (s: string)
    ensures |s| > 0 && '#' !in s
  {
    if n < 36 then [Digit36(n)] else Base36(n / 36) + [Digit36(n % 36)]
  }

  function IndeterminateValue(instanceId: string, incarnationId: string, attempt: nat): string {
    INDETERMINATE_PREFIX + instanceId + "#" + incarnationId + "#" + Base36(attempt)
  }

  // String.prototype.lastIndexOf for one character.
  function LastIndexOf(s: string, c: char): (i: int)
    ensures -1 <= i < |s|
    ensures i >= 0 ==> s[i] == c && c !in s[i + 1..]
    ensures i == -1 ==> c !in s
  {
    if s == [] then -1
    else if s[|s| - 1] == c then |s| - 1
    else
      var i := LastIndexOf(s[..|s| - 1], c);
      assert i >= 0 ==> s[i + 1..] == s[..|s| - 1][i + 1..] + [s[|s| - 1]];
      i
  }

  function ParseHolder(value: string): Option<Holder> {
    if value == PROCESSING then Some(Holder("", None))
    else if !(PROCESSING_PREFIX <= value) then None
    else
      var rest := value[|PROCESSING_PREFIX|..];
      var sep := LastIndexOf(rest, '#');
      if sep == -1 then Some(Holder(rest, None))
      else Some(Holder(rest[..sep], Some(rest[sep + 1..])))
  }

  predicate IsIndeterminate(value: string) {
    INDETERMINATE_PREFIX <= value
  }

  // What JSON.stringify can start with: an object, an array, a string, true, false, null or a number.
  predicate IsJsonText(value: string) {
    |value| > 0 &&
    (value[0] in {'{', '[', '"', 't', 'f', 'n', '-'} || '0' <= value[0] <= '9')
  }

  lemma {:induction false} LastSeparator(a: string, b: string)
    requires '#' !in b
    ensures LastIndexOf(a + "#" + b, '#') == |a|
    decreases |b|
  {
    var s := a + "#" + b;
    if b == "" {
      assert s == a + "#";
    } else {
      var shorter := b[..|b| - 1];
      assert s[|s| - 1] == b[|b| - 1] && s[..|s| - 1] == a + "#" + shorter;
      LastSeparator(a, shorter);
    }
  }

  /** A marker names its holder back exactly when the incarnation has no separator; the instance id may be anything. */
  lemma ProcessingRoundTrip(instanceId: string, incarnationId: string)
    ensures ParseHolder(ProcessingValue(instanceId, incarnationId)) == Some(Holder(instanceId, Some(incarnationId)))
            <==> '#' !in incarnationId
  {
    var value := ProcessingValue(instanceId, incarnationId);
    var rest := instanceId + "#" + incarnationId;
    assert value == PROCESSING_PREFIX + rest;
    assert value[|PROCESSING_PREFIX|..] == rest;
    assert value != PROCESSING by { assert value[|PROCESSING|] == ':'; }
    var sep := LastIndexOf(rest, '#');
    assert rest[|instanceId|] == '#';
    assert sep >= 0 && '#' !in rest[sep + 1..];
    assert ParseHolder(value) == Some(Holder(rest[..sep], Some(rest[sep + 1..])));
    if '#' !in incarnationId {
      LastSeparator(instanceId, incarnationId);
      assert rest[..|instanceId|] == instanceId;
      assert rest[|instanceId| + 1..] == incarnationId;
    }
  }

  /** The two pre-upgrade forms: the bare word has no holder, a bare instance id comes back without an incarnation. */
  lemma LegacyForms(instanceId: string)
    ensures ParseHolder(PROCESSING) == Some(Holder("", None))
    ensures ParseHolder(PROCESSING_PREFIX + instanceId) == Some(Holder(instanceId, None)) <==> '#' !in instanceId
  {
  }

  /** No stored value can be read as another kind: results, unknown outcomes and in-flight markers never overlap. */
  lemma FormsAreDisjoint(value: string, instanceId: string, incarnationId: string, attempt: nat)
    ensures IsJsonText(value) ==> ParseHolder(value) == None && !IsIndeterminate(value)
    ensures IsIndeterminate(value) ==> ParseHolder(value) == None
    ensures ParseHolder(ProcessingValue(instanceId, incarnationId)).Some?
    ensures IsIndeterminate(IndeterminateValue(instanceId, incarnationId, attempt))
  {
  }

  lemma {:induction false} Base36Injective(m: nat, n: nat)
    requires Base36(m) == Base36(n)
    ensures m == n
  {
    var s, t := Base36(m), Base36(n);
    assert s[|s| - 1] == Digit36(m % 36) && t[|t| - 1] == Digit36(n % 36);
    if m >= 36 && n >= 36 {
      assert s[..|s| - 1] == Base36(m / 36) && t[..|t| - 1] == Base36(n / 36);
      Base36Injective(m / 36, n / 36);
    }
  }

  lemma SplitAtLast(a: string, b: string, a': string, b': string)
    requires '#' !in b && '#' !in b' && a + "#" + b == a' + "#" + b'
    ensures a == a' && b == b'
  {
    LastSeparator(a, b);
    LastSeparator(a', b');
    var s := a + "#" + b;
    assert a == s[..|a|] && a' == s[..|a'|];
    assert b == s[|a| + 1..] && b' == s[|a'| + 1..];
  }

  /** Markers identify their writer: equal text means the same process and, for an unknown outcome, the same attempt. */
  lemma MarkersAreInjective(i: string, c: string, n: nat, i': string, c': string, n': nat)
    requires '#' !in c && '#' !in c'
    ensures ProcessingValue(i, c) == ProcessingValue(i', c') ==> i == i' && c == c'
    ensures IndeterminateValue(i, c, n) == IndeterminateValue(i', c', n') ==> i == i' && c == c' && n == n'
  {
    if ProcessingValue(i, c) == ProcessingValue(i', c') {
      var p := |PROCESSING_PREFIX|;
      assert ProcessingValue(i, c)[p..] == i + "#" + c;
      assert ProcessingValue(i', c')[p..] == i' + "#" + c';
      SplitAtLast(i, c, i', c');
    }
    if IndeterminateValue(i, c, n) == IndeterminateValue(i', c', n') {
      var p := |INDETERMINATE_PREFIX|;
      var outer, outer' := i + "#" + c, i' + "#" + c';
      assert IndeterminateValue(i, c, n)[p..] == outer + "#" + Base36(n);
      assert IndeterminateValue(i', c', n')[p..] == outer' + "#" + Base36(n');
      SplitAtLast(outer, Base36(n), outer', Base36(n'));
      SplitAtLast(i, c, i', c');
      Base36Injective(n, n');
    }
  }
}
