/**
  Which request URLs the wrapper's 400 special case can match: the path test
  `fullUrl.includes('/users/useOnlineStatus')` (src/services/http-client.js:214)
  against the registered endpoint paths (src/config/api.config.js:49-170).
 */
module Routing {
  import opened Text
  import opened Values
  import opened Config
  import opened Query

  /** The URL a main-API call requests: base URL, endpoint path, and the
      serialised query when the call has one. */
  function EndpointUrl(base: string, e: Endpoint, ps: Option<Params>): string {
    base + Path(e) + (if ps.Some? then "?" + Serialize(ps.value) else "")
  }

  /** The facts about a path that the containment argument needs. */
  predicate PathShape(p: string) {
    |p| >= 5 && p[0] == '/' && p[4] != 'O' && !Contains(p, StatusMarker)
  }

  /** One differing character rules out an occurrence. */
  lemma Mismatch(s: string, m: string, i: int, k: int)
    requires 0 <= k < |m|
    requires 0 <= i && i + |m| <= |s| ==> s[i + k] != m[k]
    ensures !OccursAt(s, m, i)
  {
    if 0 <= i && i + |m| <= |s| {
      assert s[i..i + |m|][k] == s[i + k];
    }
  }

  /** The status path has a slash at positions 0 and 6 only. */
  lemma MarkerSlashes(k: int)
    requires 0 <= k < |StatusMarker| && StatusMarker[k] == '/'
    ensures k == 0 || k == 6
  {
    assert StatusMarker == ['/', 'u', 's', 'e', 'r', 's', '/', 'u', 's', 'e', 'O', 'n', 'l', 'i', 'n', 'e', 'S', 't', 'a', 't', 'u', 's'];
  }

  lemma NoMarkerInLongPath(p: string, n: nat)
    requires |p| <= |StatusMarker| + n
    requires forall i :: 1 <= i <= n + 1 && i < |p| ==> p[i] != 'u'
    ensures !Contains(p, StatusMarker)
  {
    forall i | 0 <= i <= |p| - |StatusMarker|
      ensures !OccursAt(p, StatusMarker, i)
    {
      Mismatch(p, StatusMarker, i, 1);
    }
  }

  /** Every registered path but the status check's has that shape. */
  lemma RegisteredPathShape(e: Endpoint)
    requires e != CheckStatus
    ensures PathShape(Path(e))
  {
    var p := Path(e);
    if e == BookmarkListByTag {
      NoMarkerInLongPath(p, 1);
    } else if e == MultiSearch {
      NoMarkerInLongPath(p, 3);
    } else {
      assert |p| < |StatusMarker|;
    }
  }

  /** A marker occurrence that starts inside `a` and ends beyond it would need
      the path after `a` to start with "/useO". */
  lemma NoStraddle(a: string, p: string, rest: string, i: int)
    requires PathShape(p)
    requires 0 <= i < |a| < i + |StatusMarker|
    ensures !OccursAt(a + p + rest, StatusMarker, i)
  {
    var u := a + p + rest;
    var k := |a| - i;
    assert u[|a|] == '/';
    if StatusMarker[k] == '/' {
      MarkerSlashes(k);
      assert u[|a| + 4] == p[4];
      Mismatch(u, StatusMarker, i, 10);
    } else {
      Mismatch(u, StatusMarker, i, k);
    }
  }

  /** Past the path comes `?` and a serialised query, neither of which the status path can reach into. */
  lemma NoMarkerInTail(p: string, tail: string, i: int)
    requires PathShape(p)
    requires tail != [] && tail[0] == '?'
    requires forall j :: 0 <= j < |tail| ==> tail[j] != '/'
    requires 0 <= i
    ensures !OccursAt(p + tail, StatusMarker, i)
  {
    var r := p + tail;
    if i + |StatusMarker| <= |p| {
      assert r[i..i + |StatusMarker|] == p[i..i + |StatusMarker|];
      assert !OccursAt(p, StatusMarker, i);
    } else if i <= |p| {
      var k := |p| - i;
      assert r[|p|] == '?';
      Mismatch(r, StatusMarker, i, k);
    } else {
      Mismatch(r, StatusMarker, i, 0);
    }
  }

  /** No occurrence at any single position of a base, a shaped path and a tail. */
  lemma NoMarkerAt(base: string, p: string, tail: string, i: int)
    requires !Contains(base, StatusMarker)
    requires PathShape(p)
    requires tail == [] || tail[0] == '?'
    requires forall j :: 0 <= j < |tail| ==> tail[j] != '/'
    requires 0 <= i
    ensures !OccursAt(base + p + tail, StatusMarker, i)
  {
    var u := base + p + tail;
    if i + |StatusMarker| > |u| {
    } else if i + |StatusMarker| <= |base| {
      assert u[i..i + |StatusMarker|] == base[i..i + |StatusMarker|];
      assert !OccursAt(base, StatusMarker, i);
    } else if i < |base| {
      NoStraddle(base, p, tail, i);
    } else {
      assert u == base + (p + tail);
      assert u[i..i + |StatusMarker|] == (p + tail)[i - |base|..i - |base| + |StatusMarker|];
      if tail == [] {
        assert p + tail == p;
        assert !OccursAt(p, StatusMarker, i - |base|);
      } else {
        NoMarkerInTail(p, tail, i - |base|);
      }
    }
  }

  /** A query part is `?` followed by characters that are never a slash. */
  lemma QueryTail(ps: Params)
    ensures ("?" + Serialize(ps))[0] == '?'
    ensures forall j :: 0 <= j < |"?" + Serialize(ps)| ==> ("?" + Serialize(ps))[j] != '/'
  {
    var t := "?" + Serialize(ps);
    forall j | 0 <= j < |t|
      ensures t[j] != '/'
    {
      if j > 0 {
        assert t[j] == Serialize(ps)[j - 1];
      }
    }
  }

  /** Only the status check's URL matches the 400 special case, for any query
      and any base URL that does not itself contain the status path. */
  lemma OnlyStatusCheckMatches(base: string, e: Endpoint, ps: Option<Params>)
    requires !Contains(base, StatusMarker)
    ensures Contains(EndpointUrl(base, e, ps), StatusMarker) <==> e == CheckStatus
  {
    var u := EndpointUrl(base, e, ps);
    var p := Path(e);
    var tail := if ps.Some? then "?" + Serialize(ps.value) else "";
    assert u == base + p + tail;
    if e == CheckStatus {
      assert OccursAt(u, StatusMarker, |base|) by {
        assert u[|base|..|base| + |StatusMarker|] == p;
      }
    } else {
      RegisteredPathShape(e);
      if ps.Some? {
        QueryTail(ps.value);
      }
      forall i | 0 <= i <= |u| - |StatusMarker|
        ensures !OccursAt(u, StatusMarker, i)
      {
        NoMarkerAt(base, p, tail, i);
      }
    }
  }
}
