/** The per-test resolution of OAuth scopes and cache bypass done by the
    BaseApiTest variants before each test. Reflection is replaced by plain
    data: the annotations a test method or a test class carries. */
module ScopeResolution {
  import opened Wrappers

  /** What one element (method or class) is annotated with: the value of
      @OAuthScopes (None: no such annotation) and whether @BypassTokenCache
      is present. */
  datatype Annotations = Annotations(oauthScopes: Option<seq<string>>, bypassTokenCache: bool)

  /** JUnit's TestInfo, reduced to the annotations of its test method, if any. */
  datatype TestInfo = TestInfo(testMethod: Option<Annotations>)

  /** A level supplies scopes when its annotation is present with a
      non-empty value. */
  predicate Declares(scopes: Option<seq<string>>)
  {
    scopes.Some? && |scopes.value| > 0
  }

  /** findTestMethod: null for a null TestInfo or an absent test method. */
  function FindTestMethod(testInfo: Option<TestInfo>): (testMethod: Option<Annotations>)
    ensures testMethod.None? <==> testInfo.None? || testInfo.value.testMethod.None?
    ensures testMethod.Some? ==> testMethod == testInfo.value.testMethod
  {
    match testInfo
    case None => None
    case Some(info) => info.testMethod
  }

  /** extractScopesFromAnnotation of the com.wfld and com.westfieldgrp
      BaseApiTest and of BaseApiTestPlaywrightExample. */
  function ExtractScopesFromAnnotation(testInfo: Option<TestInfo>, classAnnotations: Annotations): seq<string>
  {
    var testMethod := FindTestMethod(testInfo);
    if testMethod.Some? && Declares(testMethod.value.oauthScopes) then testMethod.value.oauthScopes.value
    else if Declares(classAnnotations.oauthScopes) then classAnnotations.oauthScopes.value
    else []
  }

  /** shouldBypassCache of the same three classes. */
  function ShouldBypassCache(testInfo: Option<TestInfo>, classAnnotations: Annotations): bool
  {
    var testMethod := FindTestMethod(testInfo);
    if testMethod.Some? && testMethod.value.bypassTokenCache then true
    else classAnnotations.bypassTokenCache
  }

  /** extractScopesFromAnnotation of the com.insurance test BaseApiTest: the
      class annotation only. */
  function ExtractClassScopes(classScopes: Option<seq<string>>): seq<string>
  {
    if Declares(classScopes) then classScopes.value else []
  }

  // ------------------------------------------------------------------
  // A reference definition: the first level, in order of precedence,
  // that supplies scopes.

  function FirstDeclared(levels: seq<Option<seq<string>>>): seq<string>
    decreases |levels|
  {
    if |levels| == 0 then []
    else if Declares(levels[0]) then levels[0].value
    else FirstDeclared(levels[1..])
  }

  /** The levels consulted, most specific first: the test method's
      annotation when there is a test method, then the class's. */
  function Levels(testInfo: Option<TestInfo>, classAnnotations: Annotations): seq<Option<seq<string>>>
  {
    match FindTestMethod(testInfo)
    case Some(m) => [m.oauthScopes, classAnnotations.oauthScopes]
    case None => [classAnnotations.oauthScopes]
  }

  /** The first declaring level wins: the result is empty exactly when no
      level declares scopes, and otherwise it is the value of a declaring
      level before which none declares. */
  lemma {:induction false} FirstDeclaredIsFirst(levels: seq<Option<seq<string>>>)
    ensures FirstDeclared(levels) == [] <==> forall i :: 0 <= i < |levels| ==> !Declares(levels[i])
    ensures FirstDeclared(levels) != [] ==>
      exists i :: 0 <= i < |levels| && Declares(levels[i]) && FirstDeclared(levels) == levels[i].value &&
        forall j :: 0 <= j < i ==> !Declares(levels[j])
    decreases |levels|
  {
    if |levels| > 0 && !Declares(levels[0]) {
      var rest := levels[1..];
      FirstDeclaredIsFirst(rest);
      assert forall i :: 1 <= i < |levels| ==> levels[i] == rest[i - 1];
      if FirstDeclared(rest) != [] {
        var k :| 0 <= k < |rest| && Declares(rest[k]) && FirstDeclared(rest) == rest[k].value &&
          forall j :: 0 <= j < k ==> !Declares(rest[j]);
        assert Declares(levels[k + 1]) && forall j :: 0 <= j < k + 1 ==> !Declares(levels[j]);
      }
    }
  }

  /** The three-level chain is the first-declaring-level rule over
      [method, class]. */
  lemma ExtractIsFirstDeclared(testInfo: Option<TestInfo>, classAnnotations: Annotations)
    ensures ExtractScopesFromAnnotation(testInfo, classAnnotations) == FirstDeclared(Levels(testInfo, classAnnotations))
  {
    var c := classAnnotations.oauthScopes;
    ClassScopesIsFirstDeclared(c);
    match FindTestMethod(testInfo)
    case Some(m) =>
      assert [m.oauthScopes, c][1..] == [c];
    case None =>
  }

  /** The class-only variant is the same rule over [class]. */
  lemma ClassScopesIsFirstDeclared(classScopes: Option<seq<string>>)
    ensures ExtractClassScopes(classScopes) == FirstDeclared([classScopes])
  {
    assert [classScopes][1..] == [];
  }

  // ------------------------------------------------------------------
  // Precedence

  /** A non-empty method-level value is returned as is, whatever the class says. */
  lemma MethodScopesWin(testInfo: Option<TestInfo>, c1: Annotations, c2: Annotations)
    requires FindTestMethod(testInfo).Some? && Declares(FindTestMethod(testInfo).value.oauthScopes)
    ensures ExtractScopesFromAnnotation(testInfo, c1) == FindTestMethod(testInfo).value.oauthScopes.value
    ensures ExtractScopesFromAnnotation(testInfo, c1) == ExtractScopesFromAnnotation(testInfo, c2)
  {
  }

  /** A method annotation with an empty value counts as no annotation, and
      so does a method without one: the class level decides. */
  lemma EmptyMethodValueFallsThrough(testInfo: Option<TestInfo>, classAnnotations: Annotations)
    requires FindTestMethod(testInfo).Some? && !Declares(FindTestMethod(testInfo).value.oauthScopes)
    ensures ExtractScopesFromAnnotation(testInfo, classAnnotations) == ExtractClassScopes(classAnnotations.oauthScopes)
    ensures ExtractScopesFromAnnotation(testInfo, classAnnotations) == ExtractScopesFromAnnotation(None, classAnnotations)
  {
  }

  /** The result is empty (an empty array, never null) exactly when neither
      level supplies scopes. */
  lemma EmptyIffNoneDeclared(testInfo: Option<TestInfo>, classAnnotations: Annotations)
    ensures var testMethod := FindTestMethod(testInfo);
      ExtractScopesFromAnnotation(testInfo, classAnnotations) == [] <==>
        !(testMethod.Some? && Declares(testMethod.value.oauthScopes)) && !Declares(classAnnotations.oauthScopes)
  {
  }

  /** A null TestInfo and a TestInfo without a test method both leave only
      the class level, for scopes and for bypass, and the scopes are then
      those of the class-only resolver. */
  lemma NoTestMethodMeansClassOnly(classAnnotations: Annotations)
    ensures ExtractScopesFromAnnotation(None, classAnnotations)
            == ExtractScopesFromAnnotation(Some(TestInfo(None)), classAnnotations)
            == ExtractClassScopes(classAnnotations.oauthScopes)
    ensures ShouldBypassCache(None, classAnnotations)
            == ShouldBypassCache(Some(TestInfo(None)), classAnnotations)
            == classAnnotations.bypassTokenCache
  {
  }

  /** Bypass holds exactly when the test method or the class carries
      @BypassTokenCache. */
  lemma BypassIff(testInfo: Option<TestInfo>, classAnnotations: Annotations)
    ensures ShouldBypassCache(testInfo, classAnnotations) <==>
      (FindTestMethod(testInfo).Some? && FindTestMethod(testInfo).value.bypassTokenCache) ||
      classAnnotations.bypassTokenCache
  {
  }

  /** The class-only resolver returns a present, non-empty value exactly,
      and the empty array otherwise. */
  lemma ClassScopesCases(classScopes: Option<seq<string>>)
    ensures Declares(classScopes) ==> ExtractClassScopes(classScopes) == classScopes.value
    ensures !Declares(classScopes) ==> ExtractClassScopes(classScopes) == []
  {
  }

  /** Scopes and bypass are resolved independently: the scopes do not depend
      on either @BypassTokenCache, and the bypass flag does not depend on
      either @OAuthScopes. */
  lemma ResolvedIndependently(m: Option<Annotations>, c: Annotations, m2: Option<Annotations>, c2: Annotations)
    requires m.Some? <==> m2.Some?
    ensures m.Some? && m.value.oauthScopes == m2.value.oauthScopes && c.oauthScopes == c2.oauthScopes ==>
      ExtractScopesFromAnnotation(Some(TestInfo(m)), c) == ExtractScopesFromAnnotation(Some(TestInfo(m2)), c2)
    ensures m.Some? && m.value.bypassTokenCache == m2.value.bypassTokenCache && c.bypassTokenCache == c2.bypassTokenCache ==>
      ShouldBypassCache(Some(TestInfo(m)), c) == ShouldBypassCache(Some(TestInfo(m2)), c2)
  {
  }
}
