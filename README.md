# Creative-concept generator

A Dafny model of the placeholder concept generator `generateCreativeConcepts`
of the MarketingIA dashboard (`src/lib/ai-service.ts`). The generator takes
a company name, a product name, a user-persona name, an optional campaign
brief and a count (two when omitted). It starts from an empty list and, for
each loop index `i`, pushes one record of four template strings:

- `concept`: "Concepto AI <i+1>: <product> para <persona>";
- `copyOut`: "Descubre cómo <product> transforma la vida de <persona>.";
- `copyIn`: "¡<product> es para ti!";
- `cta`: "Conoce más sobre <product>".

Files:

- `decimal.dfy` (module `Decimal`): the decimal rendering of a natural
  number used for `${i + 1}`, its inverse `ParseDecimal`, and the round trip
  that makes the rendering injective.
- `ai_service.dfy` (module `AiService`): the two record shapes as datatypes
  (the optional brief is an `Option`), the templates, the pure specification
  `Expected(params, n)`, the imperative loop `GenerateCreativeConcepts`
  proved equal to it, and lemmas about the generated list.

The count is a `nat`. The generator also accepts a count of 0 and returns
an empty list; the model follows it there. Its only caller, the campaigns
page, passes 2, 3 or 1 (src/app/(dashboard)/campaigns/page.tsx:256-263).

## Model

| member | source | states |
|---|---|---|
| `Decimal.NatToString` | src/lib/ai-service.ts:28 | the rendered index is a non-empty string of decimal digits, with a leading '0' only for 0 and a single digit exactly for numbers below ten |
| `Decimal.ParseNatToString` | src/lib/ai-service.ts:28 | reading the rendered digits back gives the number it was rendered from |
| `Decimal.NatToStringParse` | src/lib/ai-service.ts:28 | rendering a canonical digit string's value gives back that string, so the renderings are exactly the canonical digit strings |
| `Decimal.NatToStringInjective` | src/lib/ai-service.ts:28 | two numbers with the same rendering are equal |
| `AiService.Expected` | src/lib/ai-service.ts:24-33 | the specification list for count n has exactly n elements, so a count of 0 gives the empty list |
| `AiService.GenerateCreativeConcepts` | src/lib/ai-service.ts:17-33 | the loop that pushes one record per index returns exactly the specification list for the given count (two when omitted) |
| `AiService.ExpectedAt` | src/lib/ai-service.ts:26-32 | element i of the list is the record built for loop index i |
| `AiService.DefaultCount` | src/lib/ai-service.ts:17 | with no count, exactly two records are produced, those for indices 0 and 1 |
| `AiService.ConceptNumberAt` | src/lib/ai-service.ts:28 | the headline of element i has the headline shape for the given product and persona and carries the index i + 1, so elements appear in order 1 .. n |
| `AiService.ConceptNumberSound` | src/lib/ai-service.ts:28 | conversely, any text that reads back as index k is exactly the headline template written with the canonical digits of k, so the reading pins the headline text |
| `AiService.ConceptsDistinct` | src/lib/ai-service.ts:28 | elements at distinct indices have distinct headlines |
| `AiService.CopyOutAt` | src/lib/ai-service.ts:29 | every element's copyOut is the same sentence naming the product and the persona |
| `AiService.CopyInAndCtaDependOnProductOnly` | src/lib/ai-service.ts:30-31 | any two elements of any two lists generated for the same product name have equal copyIn and equal cta |
| `AiService.IgnoresCompanyAndBrief` | src/lib/ai-service.ts:28-31 | two inputs that differ only in company name and brief produce equal lists |
| `AiService.ExpectedPrefix` | src/lib/ai-service.ts:24-27 | the list for a count m is a prefix of the list for any count n >= m, since the loop only appends |
| `AiService.TwoConceptsForP1AndU1` | src/lib/ai-service.ts:26-31 | for product "P1", persona "U1" and count 2 the headlines are "Concepto AI 1: P1 para U1" and "Concepto AI 2: P1 para U1" |
| `AiService.ConceptAt` | src/lib/ai-service.ts:27-32 | no contract: its body is the record literal pushed at each loop index |
| `AiService.ConceptText` | src/lib/ai-service.ts:28 | no contract: its body is the headline template, with the index rendered by `Decimal.NatToString` |
| `AiService.CopyOutText` | src/lib/ai-service.ts:29 | no contract: its body is the copyOut template |
| `AiService.CopyInText` | src/lib/ai-service.ts:30 | no contract: its body is the copyIn template |
| `AiService.CtaText` | src/lib/ai-service.ts:31 | no contract: its body is the cta template |
| `AiService.GenerateConceptsParams` | src/lib/ai-service.ts:3-8 | no contract: the input record shape, with the optional brief as an `Option` |
| `AiService.GeneratedConcept` | src/lib/ai-service.ts:10-15 | no contract: the output record shape with its four string fields |
| `AiService.DefaultNumConcepts` | src/lib/ai-service.ts:17 | no contract: the default count 2, used by `Expected` and `GenerateCreativeConcepts` when no count is given |

## Left out

- The `console.log` of the parameters (src/lib/ai-service.ts:18): output only.
- The one-second `setTimeout` inside the returned `Promise` (src/lib/ai-service.ts:35): the model returns the value the promise resolves to.
- Counts that are not non-negative integers: JavaScript's loop runs `ceil(x)` times for a fractional positive count and not at all for a negative one; the model takes a `nat`.
- AiService.GenerateCreativeConcepts: a count above 2^32 - 1 makes the source's `concepts.push` (src/lib/ai-service.ts:27) throw a RangeError once the array reaches its maximum length, so the promise is rejected; the model returns a list for every count. (From 2^53 on, `i++` at src/lib/ai-service.ts:26 would also stop advancing.) Because of that limit, JavaScript's exponential notation for integers of 10^21 and above is never reached by `${i + 1}`, and the plain digits of Decimal.NatToString match every index the source renders.
- The dashboard page that calls the generator (selection, validation, editing and deletion of concepts) and its database client are not part of this model.
