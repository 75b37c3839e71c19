/** Plan names spelled out: what a plan header or an identity may say, whatever its
    case and the white space around it (internal/prewarm/config.go). */
module Plans {
  import opened Base
  import opened PrewarmConfig
  import opened EngineState
  import Text

  predicate Blank(s: string) {
    forall c <- s :: c in {' ', '\t', '\n', '\U{0B}', '\U{0C}', '\r'}
  }

  /** The text is the name, up to case and the white space around it. */
  ghost predicate Spells(raw: string, name: string) {
    exists i, j | 0 <= i <= j <= |raw| ::
      Blank(raw[..i]) && Blank(raw[j..]) && Text.EqualFold(raw[i..j], name)
  }

  /** The names of accounts whose states are 292 bytes long. */
  ghost predicate Individual(raw: string) {
    Spells(raw, "pro") || Spells(raw, "plus") || Spells(raw, "free") || Spells(raw, "individual")
  }

  /** The names of accounts whose states are 332 bytes long. */
  ghost predicate Business(raw: string) {
    Spells(raw, "team") || Spells(raw, "business") || Spells(raw, "self_serve_business_prolite")
  }

  /** The text names the length family of the plan. */
  ghost predicate OfPlan(raw: string, plan: string) {
    (plan == "pro" && Individual(raw)) || (plan == "team" && Business(raw))
  }

  /** The identity supports the plan: discovered accounts have to name it, and
      configured ones may also be silent. */
  ghost predicate IdentityFits(cfg: Config, raw: string, plan: string) {
    OfPlan(raw, plan) || (Blank(raw) && !cfg.AutoAccounts())
  }

  /** A turn state of the length that goes with the plan. */
  predicate Usable(s: string, plan: string) {
    && ((plan == "pro" && |s| == 292) || (plan == "team" && |s| == 332))
    && s[..6] == "gAAAAA"
    && forall c <- s :: 'A' <= c <= 'Z' || 'a' <= c <= 'z' || '0' <= c <= '9' || c in {'_', '-', '='}
  }

  // ---- Trimming ----------------------------------------------------------

  predicate Solid(s: string) {
    s != "" && !Text.IsSpace(s[0]) && !Text.IsSpace(s[|s| - 1])
  }

  lemma SpaceIsBlank(s: string)
    ensures Blank(s) <==> forall c <- s :: Text.IsSpace(c)
  {
    forall c: char
      ensures Text.IsSpace(c) <==> c in {' ', '\t', '\n', '\U{0B}', '\U{0C}', '\r'}
    {
    }
  }

  lemma BlankPart(s: string, i: nat, j: nat)
    requires Blank(s) && i <= j <= |s|
    ensures Blank(s[i..j])
  {
    forall c | c in s[i..j] ensures c in s { }
  }

  lemma {:induction false} LeftTrims(pre: string, s: string)
    requires Blank(pre) && (s == "" || !Text.IsSpace(s[0]))
    ensures Text.TrimLeft(pre + s) == s
  {
    if pre == "" {
      assert pre + s == s;
    } else {
      SpaceIsBlank(pre);
      BlankPart(pre, 1, |pre|);
      assert pre[1..|pre|] == pre[1..];
      LeftTrims(pre[1..], s);
      assert (pre + s)[1..] == pre[1..] + s;
    }
  }

  lemma {:induction false} RightTrims(s: string, post: string)
    requires Blank(post) && (s == "" || !Text.IsSpace(s[|s| - 1]))
    ensures Text.TrimRight(s + post) == s
  {
    if post == "" {
      assert s + post == s;
    } else {
      SpaceIsBlank(post);
      var n := |post| - 1;
      BlankPart(post, 0, n);
      RightTrims(s, post[..n]);
      assert (s + post)[..|s + post| - 1] == s + post[..n];
    }
  }

  lemma TrimOf(pre: string, s: string, post: string)
    requires Blank(pre) && Blank(post) && Solid(s)
    ensures Text.TrimSpace(pre + s + post) == s
  {
    assert pre + s + post == pre + (s + post);
    LeftTrims(pre, s + post);
    RightTrims(s, post);
  }

  lemma {:induction false} LeftSplits(s: string) returns (i: nat)
    ensures i <= |s| && Blank(s[..i]) && Text.TrimLeft(s) == s[i..]
    ensures s[i..] == "" || !Text.IsSpace(s[i])
  {
    if s != "" && Text.IsSpace(s[0]) {
      var j := LeftSplits(s[1..]);
      i := j + 1;
      SpaceIsBlank([s[0]]);
      assert s[..i] == [s[0]] + s[1..][..j];
      assert s[i..] == s[1..][j..];
    } else {
      i := 0;
    }
  }

  lemma {:induction false} RightSplits(s: string) returns (j: nat)
    ensures j <= |s| && Blank(s[j..]) && Text.TrimRight(s) == s[..j]
    ensures j == 0 || !Text.IsSpace(s[j - 1])
  {
    if s != "" && Text.IsSpace(s[|s| - 1]) {
      var n := |s| - 1;
      j := RightSplits(s[..n]);
      SpaceIsBlank([s[n]]);
      assert s[j..] == s[..n][j..] + [s[n]];
      assert s[..j] == s[..n][..j];
    } else {
      j := |s|;
      assert s[j..] == "" && s[..j] == s;
    }
  }

  /** Trimming takes white space off both ends, and nothing else. */
  lemma TrimSplits(s: string) returns (i: nat, j: nat)
    ensures i <= j <= |s| && Blank(s[..i]) && Blank(s[j..]) && Text.TrimSpace(s) == s[i..j]
    ensures s[i..j] == "" || Solid(s[i..j])
  {
    i := LeftSplits(s);
    var t := s[i..];
    var m := RightSplits(t);
    j := i + m;
    assert t[m..] == s[j..];
    assert t[..m] == s[i..j];
  }

  lemma TrimmedBlank(s: string)
    ensures Text.TrimSpace(s) == "" <==> Blank(s)
  {
    var i, j := TrimSplits(s);
    assert s == s[..i] + s[i..j] + s[j..];
    SpaceIsBlank(s);
    if i < j {
      assert s[i..j][0] == s[i] && s[i] in s;
    }
  }

  lemma FoldedSolid(s: string, name: string)
    requires Text.EqualFold(s, name) && Solid(name)
    ensures Solid(s)
  {
    assert |Text.ToLower(s)| == |s| && |Text.ToLower(name)| == |name|;
    assert Text.ToLower(s)[0] == Text.LowerChar(s[0]) && Text.ToLower(name)[0] == Text.LowerChar(name[0]);
    assert Text.ToLower(s)[|s| - 1] == Text.LowerChar(s[|s| - 1]);
    assert Text.ToLower(name)[|s| - 1] == Text.LowerChar(name[|s| - 1]);
  }

  lemma SpellsTrimmed(raw: string, name: string)
    requires Solid(name)
    ensures Spells(raw, name) <==> Text.EqualFold(Text.TrimSpace(raw), name)
  {
    var a, b := TrimSplits(raw);
    if Spells(raw, name) {
      var i, j :| 0 <= i <= j <= |raw| && Blank(raw[..i]) && Blank(raw[j..]) && Text.EqualFold(raw[i..j], name);
      FoldedSolid(raw[i..j], name);
      TrimOf(raw[..i], raw[i..j], raw[j..]);
      assert raw == raw[..i] + raw[i..j] + raw[j..];
    }
  }

  lemma LowerNames()
    ensures Text.ToLower("pro") == "pro" && Text.ToLower("plus") == "plus" && Text.ToLower("free") == "free"
    ensures Text.ToLower("individual") == "individual" && Text.ToLower("team") == "team"
    ensures Text.ToLower("business") == "business"
    ensures Text.ToLower("self_serve_business_prolite") == "self_serve_business_prolite"
  {
  }

  // ---- What the tests mean -----------------------------------------------

  /** The length family of a plan name. */
  lemma FamilyMeans(raw: string)
    ensures CanonicalPlan(raw) == "pro" <==> Individual(raw)
    ensures CanonicalPlan(raw) == "team" <==> Business(raw)
    ensures CanonicalPlan(raw) in {"pro", "team", ""}
  {
    LowerNames();
    SpellsTrimmed(raw, "pro");
    SpellsTrimmed(raw, "plus");
    SpellsTrimmed(raw, "free");
    SpellsTrimmed(raw, "individual");
    SpellsTrimmed(raw, "team");
    SpellsTrimmed(raw, "business");
    SpellsTrimmed(raw, "self_serve_business_prolite");
  }

  /** A plan that is reported agrees with the expected one when it is blank or
      names its length family. */
  lemma PlanMatchesMeans(raw: string, plan: string)
    ensures PlanMatches(raw, plan) <==> Blank(raw) || OfPlan(raw, plan)
  {
    TrimmedBlank(raw);
    FamilyMeans(raw);
  }

  lemma IdentityMeans(cfg: Config, raw: string, plan: string)
    requires KnownPlan(plan)
    ensures IdentityPlanMatches(cfg, raw, plan) <==> IdentityFits(cfg, raw, plan)
  {
    FamilyMeans(raw);
    PlanMatchesMeans(raw, plan);
  }

  /** A valid state has the length and the alphabet of its plan. */
  lemma ValidStateMeans(s: string, plan: string)
    ensures ValidState(s, plan) <==> Usable(s, plan)
  {
    assert |s| >= 6 ==> (Text.HasPrefix(s, "gAAAAA") <==> s[..6] == "gAAAAA");
  }

  /** Case does not matter for letters, and matters for nothing else. */
  lemma FoldMeans(a: string, b: string)
    ensures Text.EqualFold(a, b)
       <==> && |a| == |b|
            && forall i | 0 <= i < |a| ::
                 || a[i] == b[i]
                 || ('A' <= a[i] <= 'Z' && b[i] == a[i] - 'A' + 'a')
                 || ('A' <= b[i] <= 'Z' && a[i] == b[i] - 'A' + 'a')
  {
    forall i | 0 <= i < |a| && |a| == |b|
      ensures Text.ToLower(a)[i] == Text.ToLower(b)[i]
         <==> || a[i] == b[i]
              || ('A' <= a[i] <= 'Z' && b[i] == a[i] - 'A' + 'a')
              || ('A' <= b[i] <= 'Z' && a[i] == b[i] - 'A' + 'a')
    {
    }
  }

  // ---- Response headers --------------------------------------------------

  /** A plan header, in any spelling, has a value that is not blank and names
      another length family; or a state header has several values, or one of 312
      bytes. */
  ghost predicate HeadersContradict(h: Headers, plan: string) {
    exists name | name in h ::
      || (Text.EqualFold(name, "X-Codex-Plan-Type") && exists v <- h[name] :: !Blank(v) && !OfPlan(v, plan))
      || (Text.EqualFold(name, "X-Codex-Turn-State") && (|h[name]| >= 2 || exists v <- h[name] :: |v| == 312))
  }

  lemma ValuesMean(name: string, values: seq<string>, plan: string)
    ensures RevokingValues(name, values, plan)
       <==> || (Text.EqualFold(name, "X-Codex-Plan-Type") && exists v <- values :: !Blank(v) && !OfPlan(v, plan))
            || (Text.EqualFold(name, "X-Codex-Turn-State") && (|values| >= 2 || exists v <- values :: |v| == 312))
  {
    forall v | v in values
      ensures !PlanMatches(v, plan) <==> !Blank(v) && !OfPlan(v, plan)
    {
      PlanMatchesMeans(v, plan);
    }
  }

  lemma RevokingMeans(h: Headers, plan: string)
    ensures Revoking(h, plan) <==> HeadersContradict(h, plan)
  {
    forall name | name in h
      ensures RevokingValues(name, h[name], plan)
         <==> || (Text.EqualFold(name, "X-Codex-Plan-Type") && exists v <- h[name] :: !Blank(v) && !OfPlan(v, plan))
              || (Text.EqualFold(name, "X-Codex-Turn-State")
                  && (|h[name]| >= 2 || exists v <- h[name] :: |v| == 312))
    {
      ValuesMean(name, h[name], plan);
    }
  }
}
