/**
 * `CreateShortURL` and `doShorten` of svc/urlshort.go.
 *
 * svc/urlshort.go calls `lookupTargetURL`, `lookupShortPath`,
 * `generateShortPath` and `saveShortPathToURLMapping` but does not define
 * them. They are modelled over two maps: `forward` from short path to target
 * URL and `reverse` from target URL to short path. Whether a helper fails on a
 * given call is the parameter `faults`, and the path `generateShortPath` would
 * return is the parameter `generated`.
 */
module URLShort {
  import opened Wrappers
  import opened Errors

  /** The package-level sentinels of svc/urlshort.go, built with `errors.New`. */
  const ErrServerError := Plain("server error")
  const ErrConflict := Plain("conflict")

  /** What a lookup helper returns: the value, whether it was found, and its error. */
  datatype Lookup = Lookup(value: string, found: bool, err: Option<GoError>)

  /** The error each helper returns on this call, None where it succeeds. */
  datatype Faults = Faults(forwardLookup: Option<GoError>, reverseLookup: Option<GoError>, save: Option<GoError>)

  const NoFaults := Faults(None, None, None)

  /** Go's `(string, error)` result. */
  datatype Reply = Reply(path: string, err: Option<GoError>)

  /** Short path -> target URL, and target URL -> short path. */
  datatype Mappings = Mappings(forward: map<string, string>, reverse: map<string, string>)

  /** The two maps describe the same pairs. */
  ghost predicate Consistent(m: Mappings)
  {
    && (forall p :: p in m.forward ==> m.forward[p] in m.reverse && m.reverse[m.forward[p]] == p)
    && (forall u :: u in m.reverse ==> m.reverse[u] in m.forward && m.forward[m.reverse[u]] == u)
  }

  /** A lookup in one map; a failing lookup reports its error and nothing found. */
  function LookupIn(table: map<string, string>, key: string, fault: Option<GoError>): (l: Lookup)
    ensures l.err == fault
    ensures l.found <==> fault.None? && key in table
    ensures l.found ==> l.value == table[key]
  {
    if fault.Some? then Lookup("", false, fault)
    else if key in table then Lookup(table[key], true, None)
    else Lookup("", false, None)
  }

  /** `saveShortPathToURLMapping`: record the pair in both maps, or fail and record nothing. */
  function Save(m: Mappings, path: string, url: string, fault: Option<GoError>): (Option<GoError>, Mappings)
  {
    if fault.Some? then (fault, m)
    else (None, Mappings(m.forward[path := url], m.reverse[url := path]))
  }

  /** `doShorten`: the reply and the maps afterwards. */
  function Shorten(m: Mappings, shortPath: string, targetURL: string, generated: string, fault: Option<GoError>): (Reply, Mappings)
  {
    var path := if |shortPath| == 0 then generated else shortPath;
    var (err, after) := Save(m, path, targetURL, fault);
    if err.Some? then (Reply("", Some(ErrServerError)), after) else (Reply(path, None), after)
  }

  /** `CreateShortURL`: the reply and the maps afterwards. */
  function Create(m: Mappings, shortPath: string, targetURL: string, generated: string, faults: Faults): (Reply, Mappings)
  {
    var fwd := LookupIn(m.forward, shortPath, faults.forwardLookup);
    if |shortPath| > 0 && fwd.err.Some? then (Reply("", Some(ErrServerError)), m)
    else if |shortPath| > 0 && fwd.found then
      (if fwd.value == targetURL then Reply(shortPath, None) else Reply("", Some(ErrConflict)), m)
    else
      var rev := LookupIn(m.reverse, targetURL, faults.reverseLookup);
      if rev.err.Some? then (Reply("", Some(ErrServerError)), m)
      else if rev.found then (Reply(rev.value, None), m)
      else Shorten(m, shortPath, targetURL, generated, faults.save)
  }

  /** The maps when `CreateShortURL` reaches `doShorten`: neither the path nor the URL is known. */
  predicate ReachesShorten(m: Mappings, shortPath: string, targetURL: string, faults: Faults)
  {
    && (|shortPath| > 0 ==> faults.forwardLookup.None? && shortPath !in m.forward)
    && faults.reverseLookup.None? && targetURL !in m.reverse
  }

  /* ---------------------------------------------------------------------- */
  /* The branches of CreateShortURL.                                         */

  /** A failing forward lookup of a supplied path is a server error, and nothing is saved. */
  lemma ForwardLookupFails(m: Mappings, shortPath: string, targetURL: string, generated: string, faults: Faults)
    requires |shortPath| > 0 && faults.forwardLookup.Some?
    ensures Create(m, shortPath, targetURL, generated, faults) == (Reply("", Some(ErrServerError)), m)
  {
  }

  /**
   * A supplied path already mapped is returned when it maps to the same
   * target and is a conflict otherwise; either way nothing is saved.
   */
  lemma SuppliedPathKnown(m: Mappings, shortPath: string, targetURL: string, generated: string, faults: Faults)
    requires |shortPath| > 0 && faults.forwardLookup.None? && shortPath in m.forward
    ensures m.forward[shortPath] == targetURL ==>
      Create(m, shortPath, targetURL, generated, faults) == (Reply(shortPath, None), m)
    ensures m.forward[shortPath] != targetURL ==>
      Create(m, shortPath, targetURL, generated, faults) == (Reply("", Some(ErrConflict)), m)
  {
  }

  /**
   * An empty path never consults the forward lookup: neither its fault nor
   * what the forward map holds changes the reply (the forward map is still
   * where a new mapping is saved).
   */
  lemma EmptyPathSkipsForwardLookup(m: Mappings, targetURL: string, generated: string, faults: Faults,
                                    forwardFault: Option<GoError>, forward: map<string, string>)
    ensures Create(m, "", targetURL, generated, faults)
         == Create(m, "", targetURL, generated, faults.(forwardLookup := forwardFault))
    ensures Create(m, "", targetURL, generated, faults).0
         == Create(m.(forward := forward), "", targetURL, generated, faults).0
  {
  }

  /**
   * Once the supplied path (if any) is unknown, a failing reverse lookup is a
   * server error, and a URL already shortened gets its existing path back,
   * whatever path was supplied; nothing is saved.
   */
  lemma ReverseLookup(m: Mappings, shortPath: string, targetURL: string, generated: string, faults: Faults)
    requires |shortPath| > 0 ==> faults.forwardLookup.None? && shortPath !in m.forward
    ensures faults.reverseLookup.Some? ==>
      Create(m, shortPath, targetURL, generated, faults) == (Reply("", Some(ErrServerError)), m)
    ensures faults.reverseLookup.None? && targetURL in m.reverse ==>
      Create(m, shortPath, targetURL, generated, faults) == (Reply(m.reverse[targetURL], None), m)
  {
  }

  /**
   * Otherwise the supplied path, or the generated one when none was supplied,
   * is saved in both maps and returned; when the save fails the reply is a
   * server error and the maps are as they were.
   */
  lemma ShortenBranch(m: Mappings, shortPath: string, targetURL: string, generated: string, faults: Faults)
    requires ReachesShorten(m, shortPath, targetURL, faults)
    ensures var path := if shortPath == "" then generated else shortPath;
      var (reply, after) := Create(m, shortPath, targetURL, generated, faults);
      && (faults.save.None? ==>
            reply == Reply(path, None)
            && after == Mappings(m.forward[path := targetURL], m.reverse[targetURL := path]))
      && (faults.save.Some? ==> reply == Reply("", Some(ErrServerError)) && after == m)
  {
  }

  /** Every failure replies with "" and leaves the maps as they were. */
  lemma FailureChangesNothing(m: Mappings, shortPath: string, targetURL: string, generated: string, faults: Faults)
    ensures var (reply, after) := Create(m, shortPath, targetURL, generated, faults);
      reply.err.Some? ==> reply.path == "" && after == m && reply.err.value in {ErrServerError, ErrConflict}
  {
  }

  /* ---------------------------------------------------------------------- */
  /* Properties across calls.                                                */

  /**
   * Asking again for a mapping that was just granted returns the same path
   * and changes nothing, whatever path would be generated the second time.
   */
  lemma CreateIdempotent(m: Mappings, shortPath: string, targetURL: string, generated: string, faults: Faults,
                         generatedAgain: string)
    requires Create(m, shortPath, targetURL, generated, faults).0.err.None?
    ensures var (reply, after) := Create(m, shortPath, targetURL, generated, faults);
      Create(after, shortPath, targetURL, generatedAgain, NoFaults) == (reply, after)
  {
    var (reply, after) := Create(m, shortPath, targetURL, generated, faults);
    if |shortPath| > 0 && shortPath in m.forward {
      assert after == m;
    } else if targetURL in m.reverse {
      assert after == m;
    } else {
      var path := if |shortPath| == 0 then generated else shortPath;
      assert after.reverse[targetURL] == path;
      if |shortPath| > 0 {
        assert after.forward[shortPath] == targetURL;
      }
    }
  }

  /**
   * In consistent maps, a successful reply names a path that now resolves
   * to the target, and the target now maps back to that path.
   */
  lemma CreateThenResolve(m: Mappings, shortPath: string, targetURL: string, generated: string, faults: Faults)
    requires Consistent(m)
    requires Create(m, shortPath, targetURL, generated, faults).0.err.None?
    ensures var (reply, after) := Create(m, shortPath, targetURL, generated, faults);
      && reply.path in after.forward && after.forward[reply.path] == targetURL
      && targetURL in after.reverse && after.reverse[targetURL] == reply.path
  {
  }

  /**
   * The maps stay consistent as long as the path that is saved was not
   * already in use; for a supplied path the forward lookup guarantees it, for
   * a generated one nothing in svc/urlshort.go does.
   */
  lemma CreateKeepsConsistent(m: Mappings, shortPath: string, targetURL: string, generated: string, faults: Faults)
    requires Consistent(m)
    requires |shortPath| == 0 ==> generated !in m.forward
    ensures Consistent(Create(m, shortPath, targetURL, generated, faults).1)
  {
    if ReachesShorten(m, shortPath, targetURL, faults) && faults.save.None? {
      var path := if |shortPath| == 0 then generated else shortPath;
      var after := Create(m, shortPath, targetURL, generated, faults).1;
      assert after == Mappings(m.forward[path := targetURL], m.reverse[targetURL := path]);
      assert path !in m.forward;
      forall u | u in after.reverse
        ensures after.reverse[u] in after.forward && after.forward[after.reverse[u]] == u
      {
        if u != targetURL {
          assert m.reverse[u] in m.forward;
          assert m.reverse[u] != path;
        }
      }
    }
  }

  /**
   * Without that freshness the maps can drift apart: a generated path that
   * already serves another URL is overwritten in `forward`, while `reverse`
   * still sends the other URL to it.
   */
  lemma GeneratedCollisionBreaksConsistency()
    ensures var m := Mappings(map["abc" := "https://a.example"], map["https://a.example" := "abc"]);
      var after := Create(m, "", "https://b.example", "abc", NoFaults).1;
      && Consistent(m)
      && after.forward["abc"] == "https://b.example"
      && after.reverse["https://a.example"] == "abc"
      && !Consistent(after)
  {
    var m := Mappings(map["abc" := "https://a.example"], map["https://a.example" := "abc"]);
    var after := Create(m, "", "https://b.example", "abc", NoFaults).1;
    assert after.reverse["https://a.example"] == "abc";
    assert after.forward["abc"] != "https://a.example";
  }

  /* ---------------------------------------------------------------------- */
  /* The service as state changed in place.                                  */

  class Service {
    var forward: map<string, string>
    var reverse: map<string, string>

    function State(): Mappings
      reads this
    {
      Mappings(forward, reverse)
    }

    constructor (forward: map<string, string>, reverse: map<string, string>)
      ensures State() == Mappings(forward, reverse)
    {
      this.forward := forward;
      this.reverse := reverse;
    }

    /** `lookupTargetURL(shortPath)`. */
    method LookupTargetURL(shortPath: string, fault: Option<GoError>) returns (l: Lookup)
      ensures l == LookupIn(forward, shortPath, fault)
    {
      l := LookupIn(forward, shortPath, fault);
    }

    /** `lookupShortPath(targetURL)`. */
    method LookupShortPath(targetURL: string, fault: Option<GoError>) returns (l: Lookup)
      ensures l == LookupIn(reverse, targetURL, fault)
    {
      l := LookupIn(reverse, targetURL, fault);
    }

    /** `saveShortPathToURLMapping(shortPath, targetURL)`. */
    method SaveShortPathToURLMapping(shortPath: string, targetURL: string, fault: Option<GoError>) returns (err: Option<GoError>)
      modifies this
      ensures (err, State()) == Save(old(State()), shortPath, targetURL, fault)
    {
      if fault.Some? {
        return fault;
      }
      forward := forward[shortPath := targetURL];
      reverse := reverse[targetURL := shortPath];
      err := None;
    }

    /** `doShorten`: generate a path when none was given, save the mapping, return the path. */
    method DoShorten(shortPath: string, targetURL: string, generated: string, fault: Option<GoError>)
        returns (path: string, err: Option<GoError>)
      modifies this
      ensures (Reply(path, err), State()) == Shorten(old(State()), shortPath, targetURL, generated, fault)
    {
      path := shortPath;
      if |path| == 0 {
        path := generated;
      }
      var saveErr := SaveShortPathToURLMapping(path, targetURL, fault);
      if saveErr.Some? {
        return "", Some(ErrServerError);
      }
      err := None;
    }

    /** `CreateShortURL`. */
    method CreateShortURL(shortPath: string, targetURL: string, generated: string, faults: Faults)
        returns (path: string, err: Option<GoError>)
      modifies this
      ensures (Reply(path, err), State()) == Create(old(State()), shortPath, targetURL, generated, faults)
    {
      if |shortPath| > 0 {
        var fwd := LookupTargetURL(shortPath, faults.forwardLookup);
        if fwd.err.Some? {
          return "", Some(ErrServerError);
        }
        if fwd.found {
          if fwd.value == targetURL {
            return shortPath, None;
          } else {
            return "", Some(ErrConflict);
          }
        }
      }
      var rev := LookupShortPath(targetURL, faults.reverseLookup);
      if rev.err.Some? {
        return "", Some(ErrServerError);
      }
      if rev.found {
        return rev.value, None;
      }
      path, err := DoShorten(shortPath, targetURL, generated, faults.save);
    }
  }
}
