/** What the audit log keeps of a request (services/audit.py, _redact and _is_secret_key). */
module Redaction {
  import Common
  import opened Decimal

  /** Any value that can reach the audit log; `Other` is one that is only known by its text. */
  datatype Value =
    | Null
    | Bool(b: bool)
    | Number(n: int)
    | Text(s: string)
    | Items(items: seq<Value>)
    | Dict(entries: seq<Entry>)
    | Other(text: string)

  datatype Entry = Entry(key: string, value: Value)

  const MAX_VALUE_LEN: nat := 1024
  const MAX_PAYLOAD_KEYS: nat := 64
  const MAX_REDACT_DEPTH: nat := 8
  const CUT_MARK := "…(truncated)"
  const MASK := Text("***")

  const SECRET_KEY_FRAGMENTS: seq<string> := [
    "password", "token", "secret", "api_key", "apikey", "csrf", "session", "authorization", "cookie"
  ]

  // ---- Secret names ----

  function LowerChar(c: char): char {
    if 'A' <= c <= 'Z' then (c - 'A') + 'a' else c
  }

  function Lower(s: string): (r: string)
    ensures |r| == |s|
  {
    seq(|s|, i requires 0 <= i < |s| => LowerChar(s[i]))
  }

  predicate At(s: string, part: string, i: nat) {
    i + |part| <= |s| && s[i..i + |part|] == part
  }

  predicate Contains(s: string, part: string) {
    exists i | 0 <= i <= |s| :: At(s, part, i)
  }

  predicate IsSecretKey(key: string) {
    exists f | f in SECRET_KEY_FRAGMENTS :: Contains(Lower(key), f)
  }

  lemma ContainedInside(s: string, part: string, before: string, after: string)
    requires Contains(s, part)
    ensures Contains(before + s + after, part)
  {
    var i: nat :| i <= |s| && At(s, part, i);
    var longer := before + s + after;
    assert longer[|before| + i..|before| + i + |part|] == s[i..i + |part|];
    assert At(longer, part, |before| + i);
  }

  /** A secret name stays secret in any capitalisation and inside any longer name. */
  lemma SecretNamesAreStable(key: string, before: string, after: string)
    requires IsSecretKey(key)
    ensures IsSecretKey(Lower(key)) && IsSecretKey(before + key + after)
  {
    assert Lower(Lower(key)) == Lower(key);
    var f :| f in SECRET_KEY_FRAGMENTS && Contains(Lower(key), f);
    assert Lower(before + key + after) == Lower(before) + Lower(key) + Lower(after);
    ContainedInside(Lower(key), f, Lower(before), Lower(after));
  }

  lemma ContainsItsLetters(s: string, part: string, c: char)
    requires Contains(s, part) && c in part
    ensures c in s
  {
    var i: nat :| i <= |s| && At(s, part, i);
    var k :| 0 <= k < |part| && part[k] == c;
    assert s[i + k] == s[i..i + |part|][k];
  }

  // ---- The redaction ----

  function Cut(s: string): (r: string)
    ensures |r| <= MAX_VALUE_LEN + |CUT_MARK|
    ensures |s| <= 1024 ==> r == s
    ensures |s| > 1024 ==> |r| > 1024 && r[..1024] == s[..1024] && r[1024..] == CUT_MARK
  {
    if |s| > MAX_VALUE_LEN then s[..MAX_VALUE_LEN] + CUT_MARK else s
  }

  function Head(s: string): (r: string)
    ensures |r| <= MAX_VALUE_LEN && r <= s
    ensures |s| <= 1024 ==> r == s
  {
    if |s| > MAX_VALUE_LEN then s[..MAX_VALUE_LEN] else s
  }

  /** `out[key] = value` on a dictionary that keeps the order of first insertion. */
  function Put(out: seq<Entry>, key: string, value: Value): (r: seq<Entry>)
    ensures |out| <= |r| <= |out| + 1
  {
    if out == [] then [Entry(key, value)]
    else if out[0].key == key then [Entry(key, value)] + out[1..]
    else [out[0]] + Put(out[1..], key, value)
  }

  /** Past the depth limit only the size of a container is kept. */
  function Summary(value: Value): Value {
    match value
    case Dict(entries) =>
      Dict([Entry("__truncated_depth__", Bool(true)), Entry("__keys__", Number(|entries|))])
    case Items(items) => Items([Text("__truncated_depth__"), Text("len=" + Print(|items|))])
    case Text(s) => Text(Cut(s))
    case Other(text) => Text(Head(text))
    case _ => value
  }

  function Redact(value: Value, depth: nat): Value
    decreases MAX_REDACT_DEPTH - depth, 0
  {
    if depth >= MAX_REDACT_DEPTH then Summary(value)
    else match value
      case Dict(entries) =>
        var out := RedactEntries(entries, Common.Min(|entries|, MAX_PAYLOAD_KEYS), depth);
        Dict(if |entries| > MAX_PAYLOAD_KEYS then Put(out, "__truncated__", Bool(true)) else out)
      case Items(items) =>
        var n := Common.Min(|items|, MAX_PAYLOAD_KEYS);
        Items(seq(n, i requires 0 <= i < n => Redact(items[i], depth + 1)))
      case Text(s) => Text(Cut(s))
      case Other(text) => Text(Head(text))
      case _ => value
  }

  /** The dictionary built from the first n entries. */
  function RedactEntries(entries: seq<Entry>, n: nat, depth: nat): (out: seq<Entry>)
    requires n <= |entries| && depth < MAX_REDACT_DEPTH
    ensures |out| <= n
    decreases MAX_REDACT_DEPTH - depth - 1, n + 1
  {
    if n == 0 then []
    else
      var e := entries[n - 1];
      Put(RedactEntries(entries, n - 1, depth), e.key, Masked(e, depth))
  }

  function Masked(e: Entry, depth: nat): Value
    requires depth < MAX_REDACT_DEPTH
    decreases MAX_REDACT_DEPTH - depth - 1, 1
  {
    if IsSecretKey(e.key) then MASK else Redact(e.value, depth + 1)
  }

  // ---- Secrets do not get out ----

  /** The two values are the same except for what stands under secret names, at any depth. */
  predicate SameButSecrets(a: Value, b: Value) {
    match a
    case Dict(es) =>
      && b.Dict? && |es| == |b.entries|
      && (forall i | 0 <= i < |es| ::
            && es[i].key == b.entries[i].key
            && (IsSecretKey(es[i].key) || SameButSecrets(es[i].value, b.entries[i].value)))
    case Items(vs) =>
      && b.Items? && |vs| == |b.items|
      && (forall i | 0 <= i < |vs| :: SameButSecrets(vs[i], b.items[i]))
    case _ => a == b
  }

  /** Values that differ only in their secrets leave the same trace in the log. */
  lemma {:induction false} SecretsDoNotLeak(a: Value, b: Value, depth: nat)
    requires SameButSecrets(a, b)
    ensures Redact(a, depth) == Redact(b, depth)
    decreases MAX_REDACT_DEPTH - depth, 0
  {
    if depth < MAX_REDACT_DEPTH {
      match a
      case Dict(es) =>
        EntriesDoNotLeak(es, b.entries, Common.Min(|es|, MAX_PAYLOAD_KEYS), depth);
      case Items(vs) =>
        forall i | 0 <= i < Common.Min(|vs|, MAX_PAYLOAD_KEYS)
          ensures Redact(vs[i], depth + 1) == Redact(b.items[i], depth + 1)
        {
          SecretsDoNotLeak(vs[i], b.items[i], depth + 1);
        }
        assert Redact(a, depth).items == Redact(b, depth).items;
      case _ =>
    }
  }

  lemma {:induction false} EntriesDoNotLeak(es: seq<Entry>, fs: seq<Entry>, n: nat, depth: nat)
    requires n <= |es| == |fs| && depth < MAX_REDACT_DEPTH
    requires SameButSecrets(Dict(es), Dict(fs))
    ensures RedactEntries(es, n, depth) == RedactEntries(fs, n, depth)
    decreases MAX_REDACT_DEPTH - depth - 1, n + 1
  {
    if n > 0 {
      EntriesDoNotLeak(es, fs, n - 1, depth);
      EntryDoesNotLeak(es[n - 1], fs[n - 1], depth);
    }
  }

  lemma EntryDoesNotLeak(e: Entry, f: Entry, depth: nat)
    requires e.key == f.key && depth < MAX_REDACT_DEPTH
    requires IsSecretKey(e.key) || SameButSecrets(e.value, f.value)
    ensures Masked(e, depth) == Masked(f, depth)
    decreases MAX_REDACT_DEPTH - depth - 1, 1
  {
    if !IsSecretKey(e.key) {
      SecretsDoNotLeak(e.value, f.value, depth + 1);
    }
  }

  // ---- Everything else does get out ----

  /** A dictionary has each key once. */
  ghost predicate DistinctKeys(es: seq<Entry>) {
    forall i, j | 0 <= i < j < |es| :: es[i].key != es[j].key
  }

  lemma {:induction false} PutAtEnd(out: seq<Entry>, key: string, value: Value)
    requires forall i | 0 <= i < |out| :: out[i].key != key
    ensures Put(out, key, value) == out + [Entry(key, value)]
  {
    if out != [] {
      PutAtEnd(out[1..], key, value);
      assert out == [out[0]] + out[1..];
    }
  }

  ghost predicate MaskedEach(es: seq<Entry>, out: seq<Entry>, depth: nat)
    requires depth < MAX_REDACT_DEPTH && |out| <= |es|
  {
    forall i | 0 <= i < |out| :: out[i] == Entry(es[i].key, Masked(es[i], depth))
  }

  lemma OneMoreEntry(es: seq<Entry>, out: seq<Entry>, depth: nat)
    requires depth < MAX_REDACT_DEPTH && |out| < |es| && DistinctKeys(es) && MaskedEach(es, out, depth)
    ensures var e := es[|out|];
      var longer := Put(out, e.key, Masked(e, depth));
      |longer| == |out| + 1 && MaskedEach(es, longer, depth)
  {
    assert forall i | 0 <= i < |out| :: out[i].key == es[i].key != es[|out|].key;
    PutAtEnd(out, es[|out|].key, Masked(es[|out|], depth));
  }

  lemma {:induction false} EachIsMasked(es: seq<Entry>, n: nat, depth: nat)
    requires n <= |es| && depth < MAX_REDACT_DEPTH && DistinctKeys(es)
    ensures |RedactEntries(es, n, depth)| == n && MaskedEach(es, RedactEntries(es, n, depth), depth)
    decreases n
  {
    if n > 0 {
      EachIsMasked(es, n - 1, depth);
      OneMoreEntry(es, RedactEntries(es, n - 1, depth), depth);
    }
  }

  ghost predicate KeptEntry(e: Entry, r: Entry, depth: nat)
    requires depth < MAX_REDACT_DEPTH
  {
    && r.key == e.key
    && (IsSecretKey(e.key) ==> r.value == Text("***"))
    && (!IsSecretKey(e.key) ==> r.value == Redact(e.value, depth + 1))
  }

  /** The first entries keep their keys and places; only the secret ones are masked. */
  lemma EntriesAreKept(es: seq<Entry>, n: nat, depth: nat)
    requires n <= |es| && depth < MAX_REDACT_DEPTH && DistinctKeys(es)
    ensures var out := RedactEntries(es, n, depth);
      |out| == n && forall i | 0 <= i < n :: KeptEntry(es[i], out[i], depth)
  {
    EachIsMasked(es, n, depth);
  }

  /** At most `levels` containers inside one another, none larger than 64, no secret name, no long text. */
  ghost predicate Ordinary(v: Value, levels: nat)
    decreases v
  {
    match v
    case Dict(es) =>
      levels > 0 && |es| <= 64 && DistinctKeys(es) && forall e | e in es :: OrdinaryEntry(e, levels - 1)
    case Items(vs) => levels > 0 && |vs| <= 64 && forall w | w in vs :: Ordinary(w, levels - 1)
    case Text(s) => |s| <= 1024
    case Other(_) => false
    case _ => true
  }

  ghost predicate OrdinaryEntry(e: Entry, levels: nat)
    decreases e
  {
    !IsSecretKey(e.key) && Ordinary(e.value, levels)
  }

  /** An ordinary value is logged as it is. */
  lemma {:induction false} OrdinaryIsKept(v: Value, depth: nat)
    requires depth <= 8 && Ordinary(v, 8 - depth)
    ensures Redact(v, depth) == v
    decreases v
  {
    match v
    case Dict(es) =>
      EachIsMasked(es, |es|, depth);
      forall i | 0 <= i < |es|
        ensures Masked(es[i], depth) == es[i].value
      {
        assert es[i] in es && OrdinaryEntry(es[i], 8 - depth - 1);
        OrdinaryEntryIsKept(es[i], depth);
      }
      assert RedactEntries(es, |es|, depth) == es;
    case Items(vs) =>
      forall i | 0 <= i < |vs|
        ensures Redact(vs[i], depth + 1) == vs[i]
      {
        assert vs[i] in vs;
        OrdinaryIsKept(vs[i], depth + 1);
      }
      assert Redact(v, depth).items == vs;
    case _ =>
  }

  lemma OrdinaryEntryIsKept(e: Entry, depth: nat)
    requires depth < 8 && OrdinaryEntry(e, 8 - depth - 1)
    ensures Masked(e, depth) == e.value
    decreases e
  {
    OrdinaryIsKept(e.value, depth + 1);
  }

  /** Of a longer list the first 64 items are logged, each redacted for itself. */
  lemma ItemsAreKept(vs: seq<Value>, depth: nat)
    requires depth < 8
    ensures var r := Redact(Items(vs), depth);
      && r.Items? && |r.items| == Common.Min(|vs|, 64)
      && forall i | 0 <= i < |r.items| :: r.items[i] == Redact(vs[i], depth + 1)
  {
  }

  /** Of a larger dictionary the first 64 entries are, and a note says so. */
  lemma LargeDictIsNoted(es: seq<Entry>, depth: nat)
    requires depth < 8 && |es| > 64 && DistinctKeys(es) && forall e | e in es :: e.key != "__truncated__"
    ensures var r := Redact(Dict(es), depth);
      && r.Dict? && |r.entries| == 65 && r.entries[64] == Entry("__truncated__", Bool(true))
      && forall i | 0 <= i < 64 :: KeptEntry(es[i], r.entries[i], depth)
  {
    EntriesAreKept(es, 64, depth);
    var out := RedactEntries(es, 64, depth);
    forall i | 0 <= i < 64
      ensures out[i].key != "__truncated__"
    {
      assert es[i] in es && KeptEntry(es[i], out[i], depth);
    }
    PutAtEnd(out, "__truncated__", Bool(true));
  }

  lemma LengthTells(m: nat, n: nat)
    ensures "len=" + Print(m) == "len=" + Print(n) <==> m == n
  {
    if "len=" + Print(m) == "len=" + Print(n) {
      assert ("len=" + Print(m))[4..] == Print(m) && ("len=" + Print(n))[4..] == Print(n);
      PrintIsInjective(m, n);
    }
  }

  /** Past the depth limit the size of a container, and nothing else, can be read from the log. */
  lemma SummaryTellsSize(es: seq<Entry>, fs: seq<Entry>, vs: seq<Value>, ws: seq<Value>, depth: nat)
    requires depth >= 8
    ensures Redact(Dict(es), depth) == Redact(Dict(fs), depth) <==> |es| == |fs|
    ensures Redact(Items(vs), depth) == Redact(Items(ws), depth) <==> |vs| == |ws|
  {
    var a := [Text("__truncated_depth__"), Text("len=" + Print(|vs|))];
    var b := [Text("__truncated_depth__"), Text("len=" + Print(|ws|))];
    LengthTells(|vs|, |ws|);
    assert a[1] == Text("len=" + Print(|vs|)) && b[1] == Text("len=" + Print(|ws|));
    var c := [Entry("__truncated_depth__", Bool(true)), Entry("__keys__", Number(|es|))];
    var d := [Entry("__truncated_depth__", Bool(true)), Entry("__keys__", Number(|fs|))];
    assert c[1].value.n == |es| && d[1].value.n == |fs|;
  }

  // ---- The trace is bounded ----

  /** Nothing but the count of a cut-off list can be longer than the cap, and that is a number. */
  ghost predicate ShortText(s: string) {
    |s| <= MAX_VALUE_LEN + |CUT_MARK| || exists n: nat :: s == "len=" + Print(n)
  }

  /** At most `levels` containers inside one another, at most 65 entries each, short texts, and the mask
      under every secret name. */
  ghost predicate Bounded(v: Value, levels: nat)
    decreases v
  {
    match v
    case Dict(es) =>
      levels > 0 && |es| <= MAX_PAYLOAD_KEYS + 1 && forall e | e in es :: BoundedEntry(e, levels - 1)
    case Items(vs) =>
      levels > 0 && |vs| <= MAX_PAYLOAD_KEYS + 1 && forall w | w in vs :: Bounded(w, levels - 1)
    case Text(s) => ShortText(s)
    case Other(_) => false
    case _ => true
  }

  ghost predicate BoundedEntry(e: Entry, levels: nat)
    decreases e
  {
    Bounded(e.value, levels) && (IsSecretKey(e.key) ==> e.value == MASK)
  }

  lemma {:induction false} PutKeepsBounds(out: seq<Entry>, key: string, value: Value, levels: nat)
    requires forall e | e in out :: BoundedEntry(e, levels)
    requires BoundedEntry(Entry(key, value), levels)
    ensures forall e | e in Put(out, key, value) :: BoundedEntry(e, levels)
  {
    if out != [] && out[0].key != key {
      PutKeepsBounds(out[1..], key, value, levels);
    }
  }

  lemma FragmentLetters(f: string)
    requires f in SECRET_KEY_FRAGMENTS
    ensures 'o' in f || 'i' in f || ('s' in f && 'c' in f)
  {
    assert "password"[5] == 'o' && "token"[1] == 'o' && "api_key"[2] == 'i' && "apikey"[2] == 'i';
    assert "session"[4] == 'i' && "authorization"[4] == 'o' && "cookie"[1] == 'o';
    assert "secret"[0] == 's' && "secret"[2] == 'c' && "csrf"[0] == 'c' && "csrf"[1] == 's';
  }

  lemma LacksLetters(key: string, c: char)
    requires Lower(key) == key && 'o' !in key && 'i' !in key && c !in key && (c == 's' || c == 'c')
    ensures !IsSecretKey(key)
  {
    forall f | f in SECRET_KEY_FRAGMENTS
      ensures !Contains(key, f)
    {
      if Contains(key, f) {
        assert 'o' in f || 'i' in f || c in f by { FragmentLetters(f); }
        ContainsItsLetters(key, f, if 'o' in f then 'o' else if 'i' in f then 'i' else c);
        assert false;
      }
    }
  }

  lemma TruncatedIsNoSecret()
    ensures !IsSecretKey("__truncated__")
  {
    LacksLetters("__truncated__", 's');
  }

  lemma TruncatedDepthIsNoSecret()
    ensures !IsSecretKey("__truncated_depth__")
  {
    LacksLetters("__truncated_depth__", 's');
  }

  lemma KeysIsNoSecret()
    ensures !IsSecretKey("__keys__")
  {
    LacksLetters("__keys__", 'c');
  }

  /** The names that the redaction adds itself are not secret ones: every fragment has some letter
      that the name lacks. */
  lemma NotesAreNoSecrets()
    ensures !IsSecretKey("__truncated__") && !IsSecretKey("__truncated_depth__") && !IsSecretKey("__keys__")
  {
    TruncatedIsNoSecret();
    TruncatedDepthIsNoSecret();
    KeysIsNoSecret();
  }

  lemma SummaryIsBounded(v: Value)
    ensures Bounded(Summary(v), 1)
  {
    NotesAreNoSecrets();
    match v
    case Items(vs) => assert ShortText("len=" + Print(|vs|));
    case _ =>
  }

  /** Whatever is logged is nine containers deep at most, small at every level, and masked. */
  lemma {:induction false} TraceIsBounded(v: Value, depth: nat)
    requires depth <= MAX_REDACT_DEPTH
    ensures Bounded(Redact(v, depth), MAX_REDACT_DEPTH + 1 - depth)
    decreases MAX_REDACT_DEPTH - depth, 0
  {
    var levels := MAX_REDACT_DEPTH - depth;
    if depth == MAX_REDACT_DEPTH {
      SummaryIsBounded(v);
    } else {
      match v
      case Dict(es) =>
        var n := Common.Min(|es|, MAX_PAYLOAD_KEYS);
        EntriesAreBounded(es, n, depth);
        if |es| > MAX_PAYLOAD_KEYS {
          NotesAreNoSecrets();
          PutKeepsBounds(RedactEntries(es, n, depth), "__truncated__", Bool(true), levels);
        }
      case Items(vs) =>
        ItemsAreBounded(vs, depth);
      case _ =>
    }
  }

  lemma {:induction false} ItemsAreBounded(vs: seq<Value>, depth: nat)
    requires depth < MAX_REDACT_DEPTH
    ensures Bounded(Redact(Items(vs), depth), MAX_REDACT_DEPTH + 1 - depth)
    decreases MAX_REDACT_DEPTH - depth - 1, 1
  {
    forall i | 0 <= i < Common.Min(|vs|, MAX_PAYLOAD_KEYS)
      ensures Bounded(Redact(vs[i], depth + 1), MAX_REDACT_DEPTH - depth)
    {
      TraceIsBounded(vs[i], depth + 1);
    }
  }

  lemma {:induction false} EntriesAreBounded(es: seq<Entry>, n: nat, depth: nat)
    requires n <= |es| && depth < MAX_REDACT_DEPTH
    ensures forall e | e in RedactEntries(es, n, depth) :: BoundedEntry(e, MAX_REDACT_DEPTH - depth)
    decreases MAX_REDACT_DEPTH - depth - 1, n + 1
  {
    if n > 0 {
      EntriesAreBounded(es, n - 1, depth);
      var e := es[n - 1];
      TraceIsBounded(e.value, depth + 1);
      PutKeepsBounds(RedactEntries(es, n - 1, depth), e.key,
                     Masked(e, depth), MAX_REDACT_DEPTH - depth);
    }
  }
}
