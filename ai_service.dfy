/** The placeholder creative-concept generator of src/lib/ai-service.ts.
    Given the names of a company, a product and a user persona, an optional
    campaign brief and a count, it builds a list of templated concept records
    by appending one record per loop iteration.  Expected is the
    specification of that list; GenerateCreativeConcepts is the loop, proved
    equal to it; the lemmas state what the list is made of. */
module AiService {
  import opened Decimal

  datatype Option<T> = None | Some(value: T)

  /** The generator's input; an absent brief is None. */
  datatype GenerateConceptsParams = GenerateConceptsParams(
    companyName: string,
    productName: string,
    userPersonaName: string,
    campaignBrief: Option<string>)

  /** One generated record. */
  datatype GeneratedConcept = GeneratedConcept(
    concept: string,
    copyOut: string,
    copyIn: string,
    cta: string)

  /** The count used when the caller gives none. */
  const DefaultNumConcepts: nat := 2

  // The four templates.  The concept headline carries the 1-based index.

  const ConceptPrefix: string := "Concepto AI "

  function ConceptSuffix(params: GenerateConceptsParams): string {
    ": " + params.productName + " para " + params.userPersonaName
  }

  function ConceptText(params: GenerateConceptsParams, i: nat): string {
    ConceptPrefix + NatToString(i + 1) + ConceptSuffix(params)
  }

  function CopyOutText(params: GenerateConceptsParams): string {
    "Descubre cómo " + params.productName + " transforma la vida de " + params.userPersonaName + "."
  }

  function CopyInText(params: GenerateConceptsParams): string {
    "¡" + params.productName + " es para ti!"
  }

  function CtaText(params: GenerateConceptsParams): string {
    "Conoce más sobre " + params.productName
  }

  /** The record pushed at 0-based loop index i. */
  function ConceptAt(params: GenerateConceptsParams, i: nat): GeneratedConcept {
    GeneratedConcept(ConceptText(params, i), CopyOutText(params), CopyInText(params), CtaText(params))
  }

  /** The list the generator returns for a count of n: the records for
      indices 0 .. n-1, in that order. */
  function Expected(params: GenerateConceptsParams, n: nat := DefaultNumConcepts): (r: seq<GeneratedConcept>)
    ensures |r| == n
  {
    if n == 0 then [] else Expected(params, n - 1) + [ConceptAt(params, n - 1)]
  }

  /** The generator's loop: start from an empty list and push one templated
      record per index.  The simulated latency and the logging are left out;
      the result is the value the promise resolves to. */
  method GenerateCreativeConcepts(params: GenerateConceptsParams, numConcepts: nat := DefaultNumConcepts)
    returns (concepts: seq<GeneratedConcept>)
    ensures concepts == Expected(params, numConcepts)
  {
    concepts := [];
    for i := 0 to numConcepts
      invariant concepts == Expected(params, i)
    {
      concepts := concepts + [GeneratedConcept(
        ConceptText(params, i),
        CopyOutText(params),
        CopyInText(params),
        CtaText(params))];
    }
  }

  /** Reads the 1-based index back out of a concept headline written for
      params; None when the text does not have the headline's shape, with
      the index written in canonical decimal (no leading zeros). */
  function ConceptNumber(params: GenerateConceptsParams, s: string): Option<nat> {
    var suffix := ConceptSuffix(params);
    if |s| >= |ConceptPrefix| + |suffix|
       && s[..|ConceptPrefix|] == ConceptPrefix
       && s[|s| - |suffix|..] == suffix
       && IsCanonical(s[|ConceptPrefix|..|s| - |suffix|])
    then Some(ParseDecimal(s[|ConceptPrefix|..|s| - |suffix|]))
    else None
  }

  /** Element i of the list for count n is the record for index i. */
  lemma {:induction false} ExpectedAt(params: GenerateConceptsParams, n: nat, i: nat)
    requires i < n
    ensures Expected(params, n)[i] == ConceptAt(params, i)
  {
    if i < n - 1 {
      ExpectedAt(params, n - 1, i);
    }
  }

  /** Without a count, exactly two records are produced, for indices 0 and 1. */
  lemma DefaultCount(params: GenerateConceptsParams)
    ensures |Expected(params)| == 2
    ensures Expected(params) == [ConceptAt(params, 0), ConceptAt(params, 1)]
  {
    ExpectedAt(params, 2, 0);
    ExpectedAt(params, 2, 1);
  }

  /** The headline of element i names the index i + 1: the elements appear
      in index order 1 .. n. */
  lemma ConceptNumberAt(params: GenerateConceptsParams, n: nat, i: nat)
    requires i < n
    ensures ConceptNumber(params, Expected(params, n)[i].concept) == Some(i + 1)
  {
    ExpectedAt(params, n, i);
    var digits := NatToString(i + 1);
    var suffix := ConceptSuffix(params);
    var s := ConceptText(params, i);
    assert s[..|ConceptPrefix|] == ConceptPrefix;
    assert s[|s| - |suffix|..] == suffix;
    assert s[|ConceptPrefix|..|s| - |suffix|] == digits;
    ParseNatToString(i + 1);
  }

  /** Conversely, a text that reads as index k is exactly the headline
      template written with k, so ConceptNumber pins the headline text. */
  lemma ConceptNumberSound(params: GenerateConceptsParams, s: string, k: nat)
    requires ConceptNumber(params, s) == Some(k)
    ensures s == ConceptPrefix + NatToString(k) + ConceptSuffix(params)
    ensures k >= 1 ==> s == ConceptText(params, k - 1)
  {
    var suffix := ConceptSuffix(params);
    var digits := s[|ConceptPrefix|..|s| - |suffix|];
    NatToStringParse(digits);
    assert s == s[..|ConceptPrefix|] + digits + s[|s| - |suffix|..];
  }

  /** Distinct elements have distinct headlines. */
  lemma ConceptsDistinct(params: GenerateConceptsParams, n: nat, i: nat, j: nat)
    requires i < n && j < n && i != j
    ensures Expected(params, n)[i].concept != Expected(params, n)[j].concept
  {
    ConceptNumberAt(params, n, i);
    ConceptNumberAt(params, n, j);
  }

  /** copyOut is the same sentence in every element, built from the product
      and persona names. */
  lemma CopyOutAt(params: GenerateConceptsParams, n: nat, i: nat)
    requires i < n
    ensures Expected(params, n)[i].copyOut
         == "Descubre cómo " + params.productName + " transforma la vida de " + params.userPersonaName + "."
  {
    ExpectedAt(params, n, i);
  }

  /** copyIn and cta depend on the product name alone: any two elements of
      any two lists generated for the same product agree on them. */
  lemma CopyInAndCtaDependOnProductOnly(p: GenerateConceptsParams, q: GenerateConceptsParams,
                                        n: nat, m: nat, i: nat, j: nat)
    requires p.productName == q.productName
    requires i < n && j < m
    ensures Expected(p, n)[i].copyIn == Expected(q, m)[j].copyIn
    ensures Expected(p, n)[i].cta == Expected(q, m)[j].cta
  {
    ExpectedAt(p, n, i);
    ExpectedAt(q, m, j);
  }

  /** The company name and the brief do not influence the output. */
  lemma {:induction false} IgnoresCompanyAndBrief(p: GenerateConceptsParams, q: GenerateConceptsParams, n: nat)
    requires p.productName == q.productName && p.userPersonaName == q.userPersonaName
    ensures Expected(p, n) == Expected(q, n)
  {
    if n > 0 {
      IgnoresCompanyAndBrief(p, q, n - 1);
    }
  }

  /** The loop only appends: the list for m is a prefix of the list for any
      n >= m. */
  lemma {:induction false} ExpectedPrefix(params: GenerateConceptsParams, m: nat, n: nat)
    requires m <= n
    ensures Expected(params, m) == Expected(params, n)[..m]
  {
    if m < n {
      ExpectedPrefix(params, m, n - 1);
      assert Expected(params, n)[..n - 1] == Expected(params, n - 1);
    }
  }

  /** A worked case: product "P1", persona "U1", no brief, count 2. */
  lemma TwoConceptsForP1AndU1()
    ensures var r := Expected(GenerateConceptsParams("C", "P1", "U1", None), 2);
      |r| == 2
      && r[0].concept == "Concepto AI 1: P1 para U1"
      && r[1].concept == "Concepto AI 2: P1 para U1"
      && r[1].cta == "Conoce más sobre P1"
  {
    var p := GenerateConceptsParams("C", "P1", "U1", None);
    ExpectedAt(p, 2, 0);
    ExpectedAt(p, 2, 1);
    assert NatToString(1) == "1";
    assert NatToString(2) == "2";
  }
}
