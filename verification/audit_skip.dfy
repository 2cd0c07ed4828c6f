/** Which paths the diff prunes: the last key decides, letter case does not matter, and no recorded path
    leads to or through a pruned key (audit_compress.go, lines 31-43 and 208-229). What a recorded value
    holds is another matter: see AuditPrivate. */
module AuditSkip {
  import opened Text
  import opened JsonValue
  import opened AuditDiff
  import opened AuditMeaning
  import opened AuditStored

  /** What follows the last dot is the last part between dots. */
  lemma {:induction false} LastKeyIsLastPart(path: string)
    ensures var parts := Split(path, '.'); LastKey(path) == parts[|parts| - 1]
    decreases |path|
  {
    SplitSingle(path, '.');
    if '.' in path {
      LastKeyIsLastPart(path[1..]);
      var parts, rest := Split(path, '.'), Split(path[1..], '.');
      if path[0] != '.' {
        assert path == [path[0]] + path[1..];
        SplitSingle(path[1..], '.');
        JoinSplit(path[1..], '.');
        assert |rest| > 1;
        assert parts[|parts| - 1] == rest[|rest| - 1];
      }
    }
  }

  lemma {:induction false} LastKeyLower(path: string)
    ensures LastKey(Lower(path)) == Lower(LastKey(path))
    decreases |path|
  {
    assert forall i :: 0 <= i < |path| ==> (Lower(path)[i] == '.' <==> path[i] == '.');
    assert '.' in Lower(path) <==> '.' in path;
    if '.' in path {
      assert Lower(path)[1..] == Lower(path[1..]);
      LastKeyLower(path[1..]);
    }
  }

  lemma {:induction false} LastKeyEnds(path: string)
    ensures HasSuffix(path, LastKey(path))
    decreases |path|
  {
    if '.' in path {
      LastKeyEnds(path[1..]);
      var k := LastKey(path);
      assert path[|path| - |k|..] == path[1..][|path[1..]| - |k|..];
    } else {
      assert path[0..] == path;
    }
  }

  /** The comparison of the last key with a suffix never decides anything: the suffix test covers it. */
  lemma LastKeyTestRedundant(path: string, s: string)
    requires s in SKIP_SUFFIX && LastKey(path) == s
    ensures HasSuffix(Lower(path), s)
  {
    LastKeyEnds(Lower(path));
    LastKeyLower(path);
    SuffixIsLower(s);
  }

  lemma SuffixIsLower(s: string)
    requires s in SKIP_SUFFIX
    ensures Lower(s) == s
  {
  }

  /** The names that are pruned as last keys. */
  predicate PrunedName(s: string) {
    || s == "password" || s == "passwd" || s == "old_password" || s == "new_password"
    || s == "token" || s == "access_token" || s == "refresh_token" || s == "secret"
    || s == "session_key" || s == "jwt" || s == "otp" || s == "otp_secret" || s == "opt_secret"
    || s == "sms_code" || s == "authorization" || s == "cookie" || s == "context" || s == "logs"
    || s == "phone_hash" || s == "phone_enc" || s == "phone_sec"
    || s == "private" || s == "merchant_api_key" || s == "api_key" || s == "user_key"
  }

  /** The paths in lower case that are pruned. */
  predicate PrunedLow(low: string) {
    || PrunedName(LastKey(low))
    || HasSuffix(low, "updated_at") || HasSuffix(low, "updated_time")
    || HasSuffix(low, "created_time") || HasSuffix(low, "created_at") || HasSuffix(low, "join_at")
    || HasPrefix(low, "logs") || HasPrefix(low, "context.")
  }

  /** A path is pruned exactly when, in lower case, its last key is one of these names, or it ends like a time
      stamp, or it starts with "logs" or "context.". */
  lemma PrunedIff(path: string)
    ensures SkipAuditPath(path) <==> path != "" && PrunedLow(Lower(path))
  {
    SkipByLower(path);
    ExactNames(LastKey(Lower(path)));
    SuffixNames(Lower(path));
  }

  lemma ExactNames(s: string)
    ensures s in SKIP_EXACT <==> PrunedName(s)
  {
  }

  lemma SuffixNames(low: string)
    ensures EndsInSuffix(low) <==>
      || HasSuffix(low, "updated_at") || HasSuffix(low, "updated_time")
      || HasSuffix(low, "created_time") || HasSuffix(low, "created_at") || HasSuffix(low, "join_at")
  {
  }

  /** The pruning rule over a path in lower case. */
  predicate LowerPathSkipped(low: string) {
    || LastKey(low) in SKIP_EXACT
    || EndsInSuffix(low)
    || HasPrefix(low, "logs")
    || HasPrefix(low, "context.")
  }

  predicate EndsInSuffix(low: string) {
    exists s | s in SKIP_SUFFIX :: HasSuffix(low, s)
  }

  /** Whether a path is pruned does not depend on letter case anywhere in it. */
  lemma SkipIgnoresCase(p: string, q: string)
    requires Lower(p) == Lower(q)
    ensures SkipAuditPath(p) <==> SkipAuditPath(q)
  {
    SkipByLower(p);
    SkipByLower(q);
    assert |p| == |Lower(p)| && |q| == |Lower(q)|;
  }

  lemma SkipByLower(p: string)
    ensures SkipAuditPath(p) <==> p != "" && LowerPathSkipped(Lower(p))
  {
    LastKeyLower(p);
    forall s | s in SKIP_SUFFIX && LastKey(p) == s
      ensures HasSuffix(Lower(p), s)
    {
      LastKeyTestRedundant(p, s);
    }
  }

  lemma LastPathKey(path: string, keys: seq<string>)
    requires keys != [] && PathKeys(path) == keys
    ensures path != "" && LastKey(path) == keys[|keys| - 1]
  {
    LastKeyIsLastPart(path);
  }

  lemma LastKeyOfPath(keys: seq<string>)
    requires keys != [] && forall i :: 0 <= i < |keys| ==> GoodKey(keys[i])
    ensures Extend("", keys) != "" && LastKey(Extend("", keys)) == keys[|keys| - 1]
  {
    PathKeysExtend(keys);
    LastPathKey(Extend("", keys), keys);
  }

  lemma EditKeysGood(before: Json, after: Json, e: Edit)
    requires GoodKeys(before) && GoodKeys(after) && IsEdit("", before, after, e)
    ensures forall i :: 0 <= i < |e.keys| ==> GoodKey(e.keys[i])
  {
    if e.before != Null { GoodPath(before, e.keys); } else { GoodPath(after, e.keys); }
  }

  lemma EditKeyClean(before: Json, after: Json, e: Edit, n: nat)
    requires IsEdit("", before, after, e) && n < |e.keys|
    requires forall i :: 0 <= i < |e.keys| ==> GoodKey(e.keys[i])
    ensures Lower(e.keys[n]) !in SKIP_EXACT && Lower(e.keys[n]) !in SKIP_SUFFIX
  {
    var front := e.keys[..n + 1];
    assert !SkipAuditPath(Extend("", front));
    LastKeyOfPath(front);
    KeptKeyIsClean(Extend("", front), front[n]);
  }

  lemma KeptPathStart(path: string)
    requires !SkipAuditPath(path)
    ensures !HasPrefix(Lower(path), "logs") && !HasPrefix(Lower(path), "context.")
  {
    if path != "" { SkipByLower(path); }
  }

  /** No stored change lies at or below a pruned key, at any depth and in any letter case. */
  lemma StoredPathsClean(before: Json, after: Json, r: seq<AuditChange>, c: AuditChange)
    requires IsStoredDiff(r, before, after) && c in r
    ensures GoodKeys(before) && GoodKeys(after) ==>
      forall k :: k in PathKeys(c.path) ==> Lower(k) !in SKIP_EXACT && Lower(k) !in SKIP_SUFFIX
    ensures !HasPrefix(Lower(c.path), "logs") && !HasPrefix(Lower(c.path), "context.")
  {
    StoredChangesSound(before, after, r, c);
    var keys :| c.path == Extend("", keys) && IsEdit("", before, after, Edit(keys, c.before, c.after));
    KeptPathStart(c.path);
    if GoodKeys(before) && GoodKeys(after) {
      var e := Edit(keys, c.before, c.after);
      EditKeysGood(before, after, e);
      PathKeysExtend(keys);
      forall n | 0 <= n < |keys|
        ensures Lower(keys[n]) !in SKIP_EXACT && Lower(keys[n]) !in SKIP_SUFFIX
      {
        EditKeyClean(before, after, e, n);
      }
    }
  }

  lemma KeptKeyIsClean(path: string, k: string)
    requires path != "" && !SkipAuditPath(path) && k == LastKey(path)
    ensures Lower(k) !in SKIP_EXACT && Lower(k) !in SKIP_SUFFIX
  {
    LastKeyLower(path);
    SkipByLower(path);
    LastKeyEnds(Lower(path));
    KeptLastKey(Lower(path), Lower(k));
  }

  lemma KeptLastKey(low: string, last: string)
    requires !LowerPathSkipped(low) && last == LastKey(low) && HasSuffix(low, last)
    ensures last !in SKIP_EXACT && last !in SKIP_SUFFIX
  {
  }
}
