/** What the stored diff says about the two texts it was made from: blank text and "null" are nothing, a text
    that does not decode stands for itself, any other for what it decodes to (audit_compress.go, lines
    141-166). */
module AuditText {
  import opened Text
  import opened JsonValue
  import opened AuditDiff
  import opened AuditMeaning
  import opened AuditNormalize
  import opened AuditStored
  import opened AuditCompress

  lemma TextMeans(raw: string, lib: Codec)
    ensures Trim(raw) in {"", "null"} ==> ParseAuditValue(raw, lib) == Null
    ensures Trim(raw) !in {"", "null"} ==> match lib.unmarshal(Trim(raw))
      case Some(v) => ParseAuditValue(raw, lib) == v
      case None => ParseAuditValue(raw, lib) == Str(Trim(raw))
  {
  }

  /** Two texts that decode are compared as what they decode to. */
  lemma DecodedDiff(r: seq<AuditChange>, beforeRaw: string, afterRaw: string, lib: Codec, v: Json, w: Json)
    requires Trim(beforeRaw) !in {"", "null"} && lib.unmarshal(Trim(beforeRaw)) == Some(v)
    requires Trim(afterRaw) !in {"", "null"} && lib.unmarshal(Trim(afterRaw)) == Some(w)
    requires IsDiffOf(r, beforeRaw, afterRaw, lib)
    ensures exists b, a :: Normalizes(v, b, lib.sprint) && Normalizes(w, a, lib.sprint) && IsStoredDiff(r, b, a)
    ensures Agrees(v, lib.sprint) && Agrees(w, lib.sprint) ==>
      (r == [] <==> Erase("", Normalize(v, lib.sprint)) == Erase("", Normalize(w, lib.sprint)))
  {
    TextMeans(beforeRaw, lib);
    TextMeans(afterRaw, lib);
    StoredDiffMeaning(r, beforeRaw, afterRaw, lib);
  }

  /** Creating: nothing before, what decodes after. The other way round for deleting. */
  lemma OneSidedDiff(r: seq<AuditChange>, beforeRaw: string, afterRaw: string, lib: Codec, v: Json)
    requires Trim(beforeRaw) in {"", "null"}
    requires Trim(afterRaw) !in {"", "null"} && lib.unmarshal(Trim(afterRaw)) == Some(v)
    ensures IsDiffOf(r, beforeRaw, afterRaw, lib) ==>
      exists a :: Normalizes(v, a, lib.sprint) && IsStoredDiff(r, Null, a)
    ensures IsDiffOf(r, afterRaw, beforeRaw, lib) ==>
      exists b :: Normalizes(v, b, lib.sprint) && IsStoredDiff(r, b, Null)
  {
    TextMeans(beforeRaw, lib);
    TextMeans(afterRaw, lib);
    if IsDiffOf(r, beforeRaw, afterRaw, lib) {
      var b, a :| Normalizes(Null, b, lib.sprint) && Normalizes(v, a, lib.sprint) && IsStoredDiff(r, b, a);
    }
    if IsDiffOf(r, afterRaw, beforeRaw, lib) {
      var b, a :| Normalizes(v, b, lib.sprint) && Normalizes(Null, a, lib.sprint) && IsStoredDiff(r, b, a);
    }
  }

  /** Two texts that are no JSON are one change of the whole, unless they are the same but for white space. */
  lemma UndecodedDiff(r: seq<AuditChange>, beforeRaw: string, afterRaw: string, lib: Codec)
    requires Trim(beforeRaw) !in {"", "null"} && lib.unmarshal(Trim(beforeRaw)).None?
    requires Trim(afterRaw) !in {"", "null"} && lib.unmarshal(Trim(afterRaw)).None?
    requires IsDiffOf(r, beforeRaw, afterRaw, lib)
    ensures var s, t := Trim(beforeRaw), Trim(afterRaw);
      r == if s == t then [] else [AuditChange("", Str(s), Str(t), Changed)]
  {
    TextMeans(beforeRaw, lib);
    TextMeans(afterRaw, lib);
    var s, t := Str(Trim(beforeRaw)), Str(Trim(afterRaw));
    var cs := Diff("", s, t);
    assert |cs| == |Edits("", s, t)|;
    assert IsStoredDiff(r, s, t) && Capped(cs) == cs;
    assert |multiset(r)| == |multiset(cs)|;
    if cs != [] {
      assert cs == [AuditChange("", s, t, Changed)];
      assert r[0] in multiset(cs);
    }
  }

  /** Two texts that stand for nothing have no changes. */
  lemma NothingDiff(r: seq<AuditChange>, beforeRaw: string, afterRaw: string, lib: Codec)
    requires Trim(beforeRaw) in {"", "null"} && Trim(afterRaw) in {"", "null"}
    requires IsDiffOf(r, beforeRaw, afterRaw, lib)
    ensures r == []
  {
    TextMeans(beforeRaw, lib);
    TextMeans(afterRaw, lib);
    assert Diff("", Null, Null) == [];
    assert |multiset(r)| == |multiset(Capped(Diff("", Null, Null)))|;
  }
}
