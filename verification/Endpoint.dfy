// The address a hook is registered under, and how a delivery to that address
// is led back to the watcher.
module Endpoint {
  import opened Types
  import opened Text

  const HooksEndpointPrefix := "hooks?gitwebhookId="
  const GitWebHookParam := "gitwebhookId"

  function HookURL(base: string, key: Key): string {
    base + "/" + HooksEndpointPrefix + key.ns + ":" + key.name
  }

  // getHookEndpoint: the environment variable wins over the watcher's own URL.
  function HookEndpoint(cfg: Config, o: Watcher): string {
    HookURL(if cfg.webhookURL != "" then cfg.webhookURL else o.spec.receiverURL, o.key)
  }

  // The query component of a URL: what follows the first question mark, up to
  // the fragment (section 3.4 of RFC 3986).
  function Query(url: string): string {
    After(Before(url, '#'), '?')
  }

  predicate IsHex(c: char) {
    '0' <= c <= '9' || 'a' <= c <= 'f' || 'A' <= c <= 'F'
  }

  function HexValue(c: char): (v: nat)
    requires IsHex(c)
    ensures v < 16
  {
    if '0' <= c <= '9' then c as int - '0' as int
    else if 'a' <= c <= 'f' then c as int - 'a' as int + 10
    else c as int - 'A' as int + 10
  }

  // url.QueryUnescape, on bytes
  function Unescape(s: string): Option<string> {
    if s == "" then Some("")
    else if s[0] == '%' then
      if |s| < 3 || !IsHex(s[1]) || !IsHex(s[2]) then None
      else
        match Unescape(s[3..])
        case None => None
        case Some(t) => Some([(16 * HexValue(s[1]) + HexValue(s[2])) as char] + t)
    else
      match Unescape(s[1..])
      case None => None
      case Some(t) => Some([if s[0] == '+' then ' ' else s[0]] + t)
  }

  // Where the first parameter of a query ends.
  function PairEnd(q: string): (i: nat)
    ensures i <= |q|
    ensures i < |q| ==> q[i] == '&' || q[i] == ';'
    ensures forall j :: 0 <= j < i ==> q[j] != '&' && q[j] != ';'
  {
    if q == "" || q[0] == '&' || q[0] == ';' then 0 else 1 + PairEnd(q[1..])
  }

  // What a query's pair has for a parameter: its value, if the pair is well formed and
  // of that name.
  function PairValue(pair: string, param: string): Option<string> {
    if pair != "" && Unescape(Before(pair, '=')) == Some(param) then Unescape(After(pair, '=')) else None
  }

  // url.Values.Get over url.ParseQuery: the first pair that has a value.
  function QueryGet(q: string, param: string): string
    decreases |q|
  {
    if q == "" then ""
    else
      var end := PairEnd(q);
      var value := PairValue(q[..end], param);
      if value.Some? then value.value
      else QueryGet(if end == |q| then "" else q[end + 1..], param)
  }

  // The watcher HandleHook looks up for a request to this URL; None when the
  // request carries no hook parameter.
  function Receiver(url: string): Option<Key> {
    var id := QueryGet(Query(url), GitWebHookParam);
    if id == "" then None
    else var (ns, name) := Split(id, ':'); Some(Key(ns, name))
  }

  // The characters of Kubernetes namespaces and names (DNS labels and subdomains).
  predicate ValidName(s: string) {
    |s| > 0 && forall i :: 0 <= i < |s| ==>
      'a' <= s[i] <= 'z' || '0' <= s[i] <= '9' || s[i] == '-' || s[i] == '.'
  }

  predicate Valid(key: Key) {
    ValidName(key.ns) && ValidName(key.name)
  }

  predicate Plain(s: string) {
    '?' !in s && '#' !in s
  }

  lemma {:induction false} UnescapeIdentity(s: string)
    requires '%' !in s && '+' !in s
    ensures Unescape(s) == Some(s)
  {
    if s != "" {
      assert s == [s[0]] + s[1..];
      UnescapeIdentity(s[1..]);
    }
  }

  // A query of one parameter and nothing to unescape yields that parameter.
  lemma SinglePair(key: string, value: string)
    requires key != ""
    requires forall c :: c in key + value ==> c != '&' && c != ';' && c != '%' && c != '+'
    requires '=' !in key
    ensures forall param :: QueryGet(key + "=" + value, param) == if param == key then value else ""
  {
    var q := key + "=" + value;
    forall i | 0 <= i < |q| ensures q[i] != '&' && q[i] != ';' {
      assert q[i] == '=' || q[i] in key + value;
    }
    assert PairEnd(q) == |q|;
    CutAt(key, '=', value);
    assert q[..|q|] == q && key + ['='] + value == q;
    assert '%' !in key && '+' !in key && '%' !in value && '+' !in value by {
      assert forall c :: c in key || c in value ==> c in key + value;
    }
    UnescapeIdentity(key);
    UnescapeIdentity(value);
  }

  lemma NotInJoin(a: string, b: string, c: char)
    requires c !in a && c !in b
    ensures c !in a + b
  {
  }

  lemma QueryAfterPath(path: string, q: string)
    requires Plain(path) && '#' !in q
    ensures Query(path + "?" + q) == q
  {
    var url := path + "?" + q;
    NotInJoin(path, "?", '#');
    NotInJoin(path + "?", q, '#');
    assert url[..|url|] == url;
    assert Before(url, '#') == url;
    assert url == path + ['?'] + q;
    CutAt(path, '?', q);
  }

  lemma ValidNameLacks(s: string, c: char)
    requires ValidName(s)
    requires !('a' <= c <= 'z' || '0' <= c <= '9' || c == '-' || c == '.')
    ensures c !in s
  {
  }

  // The hook parameter of a watcher, and its two parts.
  function ReceiverID(key: Key): string {
    key.ns + ":" + key.name
  }

  lemma ReceiverIDSplits(key: Key)
    requires Valid(key)
    ensures Split(ReceiverID(key), ':') == (key.ns, key.name)
  {
    ValidNameLacks(key.ns, ':');
    assert ReceiverID(key) == key.ns + [':'] + key.name;
    CutAt(key.ns, ':', key.name);
    TrimSpaceIdentity(key.ns);
    TrimSpaceIdentity(key.name);
  }

  lemma ReceiverIDLacks(key: Key, c: char)
    requires Valid(key)
    requires c == '#' || c == '&' || c == ';' || c == '%' || c == '+' || c == '='
    ensures c !in ReceiverID(key)
  {
    ValidNameLacks(key.ns, c);
    ValidNameLacks(key.name, c);
    NotInJoin(key.ns, ":", c);
    NotInJoin(key.ns + ":", key.name, c);
  }

  // The query of any hook address: what the base adds in front of the hook
  // parameter's own name stays in front of it.
  lemma HookQuery(path: string, front: string, key: Key)
    requires Plain(path) && '#' !in front
    requires Valid(key)
    ensures Query(path + "?" + (front + GitWebHookParam + "=" + ReceiverID(key))) ==
      front + GitWebHookParam + "=" + ReceiverID(key)
  {
    ReceiverIDLacks(key, '#');
    NotInJoin(front, GitWebHookParam, '#');
    NotInJoin(front + GitWebHookParam, "=", '#');
    NotInJoin(front + GitWebHookParam + "=", ReceiverID(key), '#');
    QueryAfterPath(path, front + GitWebHookParam + "=" + ReceiverID(key));
  }

  lemma HookPair(front: string, key: Key)
    requires forall c :: c in front ==> c != '&' && c != ';' && c != '=' && c != '%' && c != '+'
    requires Valid(key)
    ensures forall param ::
      QueryGet(front + GitWebHookParam + "=" + ReceiverID(key), param) ==
      (if param == front + GitWebHookParam then ReceiverID(key) else "")
  {
    var name := front + GitWebHookParam;
    forall c | c in name + ReceiverID(key) ensures c != '&' && c != ';' && c != '%' && c != '+' {
      ReceiverIDLacks(key, '&');
      ReceiverIDLacks(key, ';');
      ReceiverIDLacks(key, '%');
      ReceiverIDLacks(key, '+');
    }
    NotInJoin(front, GitWebHookParam, '=');
    SinglePair(name, ReceiverID(key));
  }

  // Every delivery GitHub makes to the address a hook was registered under is
  // led back to the watcher it was registered for.
  lemma EndpointRoundTrip(base: string, key: Key)
    requires Plain(base) && Valid(key)
    ensures Receiver(HookURL(base, key)) == Some(key)
  {
    var path := base + "/hooks";
    NotInJoin(base, "/hooks", '?');
    NotInJoin(base, "/hooks", '#');
    assert HookURL(base, key) == path + "?" + ("" + GitWebHookParam + "=" + ReceiverID(key));
    HookQuery(path, "", key);
    HookPair("", key);
    assert "" + GitWebHookParam == GitWebHookParam;
    ReceiverIDSplits(key);
  }

  // Two watchers never share an address, whatever the base URLs are: the receiver id
  // is what follows the last '='.
  lemma HookURLInjective(base1: string, k1: Key, base2: string, k2: Key)
    requires Valid(k1) && Valid(k2)
    requires HookURL(base1, k1) == HookURL(base2, k2)
    ensures k1 == k2
  {
    LastEquals(base1, k1);
    LastEquals(base2, k2);
    ReceiverIDLacks(k1, '=');
    ReceiverIDLacks(k2, '=');
    SameTail(BeforeID(base1), ReceiverID(k1), BeforeID(base2), ReceiverID(k2), '=');
    ReceiverIDSplits(k1);
    ReceiverIDSplits(k2);
  }

  function BeforeID(base: string): string {
    base + "/hooks?gitwebhookId"
  }

  lemma LastEquals(base: string, key: Key)
    ensures HookURL(base, key) == BeforeID(base) + ['='] + ReceiverID(key)
  {
    assert HooksEndpointPrefix == "hooks?gitwebhookId" + ['='];
  }

  lemma SameTail(a1: string, b1: string, a2: string, b2: string, c: char)
    requires c !in b1 && c !in b2 && a1 + [c] + b1 == a2 + [c] + b2
    ensures b1 == b2
  {
    var s := a1 + [c] + b1;
    assert s[|a1|] == c && s[|a2|] == c;
    assert s[|a1| + 1..] == b1 && s[|a2| + 1..] == b2;
    assert forall j :: |a1| < j < |s| ==> s[j] == b1[j - |a1| - 1];
    assert forall j :: |a2| < j < |s| ==> s[j] == b2[j - |a2| - 1];
    assert |a1| == |a2|;
  }

  // ---------- Bases with a query or a fragment ----------

  // Nothing that a watcher's deliveries could be led back by.
  ghost predicate Astray(id: string) {
    id == "" || '/' in id
  }

  lemma {:induction false} UnescapeKeepsSlash(s: string)
    requires '/' in s && Unescape(s).Some?
    ensures '/' in Unescape(s).value
  {
    if s[0] == '%' {
      assert s == s[..3] + s[3..];
      UnescapeKeepsSlash(s[3..]);
    } else if s[0] != '/' {
      assert s == [s[0]] + s[1..];
      UnescapeKeepsSlash(s[1..]);
    }
  }

  lemma InPart(s: string, i: nat, c: char)
    requires c in s && i <= |s| && (i < |s| ==> s[i] != c)
    ensures c in s[..i] || (i < |s| && c in s[i + 1..])
  {
    var j :| 0 <= j < |s| && s[j] == c;
    if j < i {
      assert s[..i][j] == c;
    } else {
      assert s[i + 1..][j - i - 1] == c;
    }
  }

  lemma SplitKeepsSlash(s: string)
    requires '/' in s
    ensures '/' in Split(s, ':').0 || '/' in Split(s, ':').1
  {
    InPart(s, IndexOf(s, ':'), '/');
    if '/' in Before(s, ':') {
      TrimSpaceKeeps(Before(s, ':'), '/');
    } else {
      TrimSpaceKeeps(After(s, ':'), '/');
    }
  }

  lemma AstrayReceivers(url: string, key: Key)
    requires Valid(key) && Astray(QueryGet(Query(url), GitWebHookParam))
    ensures Receiver(url) != Some(key)
  {
    var id := QueryGet(Query(url), GitWebHookParam);
    if id != "" {
      SplitKeepsSlash(id);
      ValidNameLacks(key.ns, '/');
      ValidNameLacks(key.name, '/');
    }
  }

  lemma {:induction false} PairEndOfJoin(q: string, t: string)
    ensures PairEnd(q + t) == if PairEnd(q) < |q| then PairEnd(q) else |q| + PairEnd(t)
  {
    if q == "" {
      assert q + t == t;
    } else {
      assert (q + t)[0] == q[0] && (q + t)[1..] == q[1..] + t;
      PairEndOfJoin(q[1..], t);
    }
  }

  lemma {:induction false} NoPairEnd(t: string)
    requires '&' !in t && ';' !in t
    ensures PairEnd(t) == |t|
  {
    if t != "" {
      assert t[0] in t && forall c :: c in t[1..] ==> c in t;
      NoPairEnd(t[1..]);
    }
  }

  // A pair behind which something with a slash was put: the slash is in its name or in
  // its value.
  lemma PairWithSlash(pair: string, param: string, k: nat)
    requires k < |pair| && pair[k] == '/' && '/' !in param
    ensures PairValue(pair, param).Some? ==> '/' in PairValue(pair, param).value
  {
    var i := IndexOf(pair, '=');
    if i < k {
      assert After(pair, '=')[k - i - 1] == '/';
      if Unescape(After(pair, '=')).Some? { UnescapeKeepsSlash(After(pair, '=')); }
    } else {
      assert Before(pair, '=')[k] == '/';
      if Unescape(Before(pair, '=')).Some? { UnescapeKeepsSlash(Before(pair, '=')); }
    }
  }

  // Something to put behind a query.
  ghost predicate Appendable(t: string) {
    |t| > 0 && t[0] == '/' && '&' !in t && ';' !in t
  }

  lemma LastPair(q: string, t: string, param: string)
    requires PairEnd(q) == |q| && Appendable(t) && '/' !in param
    ensures Astray(QueryGet(q + t, param))
  {
    var pair := q + t;
    NoPairEnd(t);
    PairEndOfJoin(q, t);
    assert pair[..|pair|] == pair;
    PairWithSlash(pair, param, |q|);
  }

  lemma FirstPair(q: string, t: string, param: string)
    requires PairEnd(q) < |q|
    ensures var value := PairValue(q[..PairEnd(q)], param);
      QueryGet(q + t, param) == if value.Some? then value.value else QueryGet(q[PairEnd(q) + 1..] + t, param)
  {
    var s, end := q + t, PairEnd(q);
    PairEndOfJoin(q, t);
    GetStep(s, param);
    assert s[..end] == q[..end];
    assert s[end + 1..] == q[end + 1..] + t;
  }

  lemma GetStep(q: string, param: string)
    requires PairEnd(q) < |q|
    ensures var value := PairValue(q[..PairEnd(q)], param);
      QueryGet(q, param) == if value.Some? then value.value else QueryGet(q[PairEnd(q) + 1..], param)
  {
  }

  // What is found depends on the query alone, or leads nowhere.
  ghost predicate Decided(q: string, t1: string, t2: string, param: string) {
    var v1, v2 := QueryGet(q + t1, param), QueryGet(q + t2, param);
    v1 == v2 || (Astray(v1) && Astray(v2))
  }

  lemma DecidedBefore(q: string, t1: string, t2: string, param: string)
    requires PairEnd(q) < |q| && Decided(q[PairEnd(q) + 1..], t1, t2, param)
    ensures Decided(q, t1, t2, param)
  {
    FirstPair(q, t1, param);
    FirstPair(q, t2, param);
  }

  lemma {:induction false} QueryDecides(q: string, t1: string, t2: string, param: string)
    requires Appendable(t1) && Appendable(t2) && '/' !in param
    ensures Decided(q, t1, t2, param)
    decreases |q|
  {
    if PairEnd(q) == |q| {
      LastPair(q, t1, param);
      LastPair(q, t2, param);
    } else {
      QueryDecides(q[PairEnd(q) + 1..], t1, t2, param);
      DecidedBefore(q, t1, t2, param);
    }
  }

  // What HookURL puts behind its base.
  function HookPart(key: Key): string {
    "/" + HooksEndpointPrefix + ReceiverID(key)
  }

  lemma HookParts(base: string, key: Key)
    ensures HookURL(base, key) == base + HookPart(key)
  {
  }

  lemma HookPartLacks(key: Key, c: char)
    requires Valid(key) && (c == '#' || c == '&' || c == ';')
    ensures c !in HookPart(key) && |HookPart(key)| > 0 && HookPart(key)[0] == '/'
  {
    ReceiverIDLacks(key, c);
    NotInJoin("/" + HooksEndpointPrefix, ReceiverID(key), c);
  }

  lemma FragmentDecides(base: string, t: string)
    requires '#' in base
    ensures Before(base + t, '#') == Before(base, '#')
  {
    var i := IndexOf(base, '#');
    var path, rest := base[..i], base[i + 1..];
    assert base + t == path + ['#'] + (rest + t);
    CutAt(path, '#', rest + t);
  }

  lemma QueryOfBase(base: string, t: string)
    requires '#' !in base && '?' in base && '#' !in t
    ensures Query(base + t) == After(base, '?') + t
  {
    var i := IndexOf(base, '?');
    var path, q := base[..i], base[i + 1..];
    NotInJoin(base, t, '#');
    assert (base + t)[..|base + t|] == base + t;
    assert base + t == path + ['?'] + (q + t);
    CutAt(path, '?', q + t);
  }

  // A base with a query or a fragment serves at most one watcher.
  lemma OneAtMost(base: string, k1: Key, k2: Key)
    requires !Plain(base) && Valid(k1) && Valid(k2)
    requires Receiver(HookURL(base, k1)) == Some(k1) && Receiver(HookURL(base, k2)) == Some(k2)
    ensures k1 == k2
  {
    HookParts(base, k1);
    HookParts(base, k2);
    if '#' in base {
      FragmentDecides(base, HookPart(k1));
      FragmentDecides(base, HookPart(k2));
    } else {
      forall c | c == '#' || c == '&' || c == ';' ensures c !in HookPart(k1) && c !in HookPart(k2) {
        HookPartLacks(k1, c);
        HookPartLacks(k2, c);
      }
      QueryOfBase(base, HookPart(k1));
      QueryOfBase(base, HookPart(k2));
      QueryDecides(After(base, '?'), HookPart(k1), HookPart(k2), GitWebHookParam);
      if Astray(QueryGet(Query(HookURL(base, k1)), GitWebHookParam)) { AstrayReceivers(HookURL(base, k1), k1); }
    }
  }

  // The round trip works for all watchers exactly for bases without query and fragment.
  lemma RoundTripExactly(base: string)
    ensures (forall key :: Valid(key) ==> Receiver(HookURL(base, key)) == Some(key)) <==> Plain(base)
  {
    if Plain(base) {
      forall key | Valid(key) ensures Receiver(HookURL(base, key)) == Some(key) {
        EndpointRoundTrip(base, key);
      }
    } else {
      var k1, k2 := Key("a", "a"), Key("a", "b");
      assert Valid(k1) && Valid(k2);
      if Receiver(HookURL(base, k1)) == Some(k1) && Receiver(HookURL(base, k2)) == Some(k2) {
        OneAtMost(base, k1, k2);
      }
    }
  }

  // A base whose query is one word swallows the hook parameter, and deliveries are
  // ignored.
  lemma QueryInBaseLosesReceiver(path: string, query: string, key: Key)
    requires Plain(path) && Valid(key)
    requires forall c :: c in query ==> c != '&' && c != ';' && c != '=' && c != '#' && c != '%' && c != '+'
    ensures Receiver(HookURL(path + "?" + query, key)) == None
  {
    var front := query + "/hooks?";
    NotInJoin(query, "/hooks?", '#');
    assert HookURL(path + "?" + query, key) == path + "?" + (front + GitWebHookParam + "=" + ReceiverID(key));
    HookQuery(path, front, key);
    HookPair(front, key);
    assert |front + GitWebHookParam| > |GitWebHookParam|;
  }

  // One with a hook parameter of its own leads every delivery to that watcher.
  lemma QueryInBaseLeadsElsewhere(path: string, x: Key, key: Key)
    requires Plain(path) && Valid(x) && Valid(key)
    ensures Receiver(HookURL(path + "?" + (GitWebHookParam + "=" + ReceiverID(x) + "&"), key)) == Some(x)
  {
    var pair := GitWebHookParam + "=" + ReceiverID(x);
    var base := path + "?" + (pair + "&");
    PairOf(x);
    HookParts(base, key);
    HookPartLacks(key, '#');
    NotInJoin(pair, "&", '#');
    assert base == path + ['?'] + (pair + "&");
    CutAt(path, '?', pair + "&");
    assert '#' !in base;
    QueryOfBase(base, HookPart(key));
    NoPairEnd(pair);
    PairEndOfJoin(pair, "&");
    assert (pair + "&")[..|pair|] == pair;
    FirstPair(pair + "&", HookPart(key), GitWebHookParam);
    ReceiverIDSplits(x);
  }

  lemma PairOf(x: Key)
    requires Valid(x)
    ensures var pair := GitWebHookParam + "=" + ReceiverID(x);
      && '#' !in pair && '&' !in pair && ';' !in pair
      && Unescape(Before(pair, '=')) == Some(GitWebHookParam) && Unescape(After(pair, '=')) == Some(ReceiverID(x))
  {
    var pair := GitWebHookParam + "=" + ReceiverID(x);
    forall c | c == '#' || c == '&' || c == ';' ensures c !in pair {
      ReceiverIDLacks(x, c);
      NotInJoin(GitWebHookParam, "=", c);
      NotInJoin(GitWebHookParam + "=", ReceiverID(x), c);
    }
    assert pair == GitWebHookParam + ['='] + ReceiverID(x);
    CutAt(GitWebHookParam, '=', ReceiverID(x));
    ReceiverIDLacks(x, '%');
    ReceiverIDLacks(x, '+');
    UnescapeIdentity(GitWebHookParam);
    UnescapeIdentity(ReceiverID(x));
  }
}
