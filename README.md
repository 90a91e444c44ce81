# Registration form validation: a Dafny model

This project models the validation core of a React registration form for
Brazilian registrants, an individual (*pessoa física*) or an organisation
(*pessoa jurídica*). That core is the zod object `formSchema` together with its
three helpers:

- `cleanNumber` strips every non-digit.
- `validarCPF` checks the two mod-11 check digits of an individual's 11-digit
  CPF.
- `validarCNPJ` does the same for an organisation's 14-digit CNPJ, using its
  inner weighted-sum routine `calc`.

The project has three modules:

- `Digits` (`digits.dfy`) defines digit characters and `cleanNumber` as the
  recursive function `CleanNumber`. It also defines the schema's phone
  pattern (10 or 11 digits), its CEP pattern (five digits, an optional hyphen,
  three digits) and the repeated-digit pattern `/^(\d)\1+$/`.
- `CheckDigits` (`checkdigits.dfy`) specifies each check-digit scheme twice:
  - by a recursive weighted sum and a predicate (`ValidCPF`, `ValidCNPJ`);
  - by methods whose `for`/`while` loops follow `validarCPF`, `calc` and
    `validarCNPJ` step by step.

  Each method is proved to compute exactly its predicate. The predicates are
  then characterised: a number is valid exactly when it is its base followed
  by the check digits that base determines.
- `FormSchema` (`formschema.dfy`) defines:
  - the typed submission `Form`, with one constructor argument per schema key;
  - each key's rule chain as a function returning that key's failure messages;
  - `Validate`, the counterpart of `safeParse`. It evaluates every key and
    returns either the parsed record (the transformed keys replaced by their
    digits) or the map from each failing key to all of its messages.

## Model

| member | source | states |
|---|---|---|
| Digits.DigitValue | src/components/schemas/formSchema.ts:14 | `parseInt` of one digit character is a value in 0..9 |
| Digits.DigitCharValue | src/components/schemas/formSchema.ts:14 | digit value and digit character are inverse: turning a digit's value back into a character gives that digit |
| Digits.CleanNumber | src/components/schemas/formSchema.ts:5-7 | the result holds only digits and is no longer than the input; an all-digit input is returned unchanged; an input with no digit gives "" |
| Digits.CleanConcat | src/components/schemas/formSchema.ts:5-7 | cleaning distributes over concatenation, so digits keep their order |
| Digits.CleanIdempotent | src/components/schemas/formSchema.ts:5-7 | cleaning twice equals cleaning once |
| Digits.CleanKeepsDigit | src/components/schemas/formSchema.ts:5-7 | every digit of the input appears in the output, at the position given by the number of digits before it |
| Digits.CleanEmptyIff | src/components/schemas/formSchema.ts:5-7 | the cleaned value is empty if and only if the input holds no digit |
| Digits.CleanIgnoresSeparator | src/components/schemas/formSchema.ts:5-7 | inserting a non-digit anywhere leaves the cleaned value unchanged |
| Digits.FormatCpfRoundTrip | src/components/forms/pessoaFisicaFields.tsx:53-54 | an 11-digit CPF written with the input mask `000.000.000-00` cleans back to the same 11 digits |
| Digits.CepPatternDigits | src/components/schemas/formSchema.ts:103 | a CEP that matches `^\d{5}-?\d{3}$` carries exactly eight digits; cleaning returns the value itself, or the value without its hyphen |
| Digits.PhonePatternOfClean | src/components/schemas/formSchema.ts:83 | on a cleaned value, `/^\d{10,11}$/` holds exactly when it has 10 or 11 characters |
| Digits.RepeatedDigitIff | src/components/schemas/formSchema.ts:12 | `/^(\d)\1+$/` matches exactly the strings of at least two characters that are all digits and all equal |
| CheckDigits.CpfCheckDigit | src/components/schemas/formSchema.ts:15-16 | the remainder `(sum*10) % 11` is at most 10, so the test for 11 never succeeds; the digit is that remainder, except that 10 becomes 0 |
| CheckDigits.CpfCheckDigits | src/components/schemas/formSchema.ts:13-22 | a nine-digit base determines two check digits |
| CheckDigits.ValidarCPF | src/components/schemas/formSchema.ts:10-23 | the two loops and the early returns accept exactly the inputs satisfying `ValidCPF`: 11 digits after cleaning, not one repeated digit, both weighted-sum check digits matching |
| CheckDigits.ValidCPFOfClean | src/components/schemas/formSchema.ts:11 | the verdict depends only on the cleaned input |
| CheckDigits.CpfCharacterization | src/components/schemas/formSchema.ts:12-22 | valid if and only if the cleaned value has 11 digits, is not one repeated digit, and equals its first nine digits followed by their check digits |
| CheckDigits.CpfUnique | src/components/schemas/formSchema.ts:12-22 | two valid CPFs with the same first nine digits are the same number |
| CheckDigits.CpfCompletion | src/components/schemas/formSchema.ts:12-22 | every nine-digit base completed with its check digits is accepted, unless the result is one repeated digit |
| CheckDigits.CpfVectorValidSums | src/components/schemas/formSchema.ts:13-19 | the two weighted sums of 52998224725 are 295 and 347 |
| CheckDigits.CpfVectorValid | src/components/schemas/formSchema.ts:10-23 | 52998224725 is accepted |
| CheckDigits.CpfVectorGoldenSums | src/components/schemas/formSchema.ts:13-19 | the two weighted sums of 11144477735 are 162 and 204 |
| CheckDigits.CpfVectorGolden | src/components/schemas/formSchema.ts:10-23 | 11144477735 is accepted |
| CheckDigits.CpfRepeatedSums | src/components/schemas/formSchema.ts:13-19 | the two weighted sums of 11111111111 are 54 and 65 |
| CheckDigits.RepeatedRejected | src/components/schemas/formSchema.ts:11-12 | any input whose digits are one digit repeated is rejected |
| CheckDigits.CpfRepeatedRejected | src/components/schemas/formSchema.ts:12-22 | 11111111111 passes both check-digit comparisons, yet the repeated-digit test rejects it |
| CheckDigits.CpfZerosRejected | src/components/schemas/formSchema.ts:12 | 00000000000 is rejected |
| CheckDigits.CnpjWeight | src/components/schemas/formSchema.ts:35-40 | every weight `calc` uses lies in 2..9 |
| CheckDigits.CnpjWeightStep | src/components/schemas/formSchema.ts:39-40 | one step of the counter (decrement, back to 9 below 2) moves to the closed-form weight of the next position |
| CheckDigits.CnpjWeights12 | src/components/schemas/formSchema.ts:35-40 | the weights of `calc(12)` are 5,4,3,2,9,8,7,6,5,4,3,2 |
| CheckDigits.CnpjCheckDigit | src/components/schemas/formSchema.ts:42-43 | the result is always a digit 0..9: `11 - s % 11` when that is at most 9, and 0 otherwise (for 10 and 11) |
| CheckDigits.Calc | src/components/schemas/formSchema.ts:33-44 | the loop over the first x digits returns the check digit of the weighted sum, a value in 0..9 |
| CheckDigits.CnpjCheckDigits | src/components/schemas/formSchema.ts:45 | a twelve-digit base determines two check digits |
| CheckDigits.ValidarCNPJ | src/components/schemas/formSchema.ts:26-46 | accepts exactly the inputs satisfying `ValidCNPJ`: 14 digits after cleaning, not one repeated digit, `calc(12)` and `calc(13)` equal to the last two digits |
| CheckDigits.ValidCNPJOfClean | src/components/schemas/formSchema.ts:27 | the verdict depends only on the cleaned input |
| CheckDigits.CnpjCharacterization | src/components/schemas/formSchema.ts:28-45 | valid if and only if the cleaned value has 14 digits, is not one repeated digit, and equals its first twelve digits followed by their check digits |
| CheckDigits.CnpjUnique | src/components/schemas/formSchema.ts:28-45 | two valid CNPJs with the same first twelve digits are the same number |
| CheckDigits.CnpjCompletion | src/components/schemas/formSchema.ts:28-45 | every twelve-digit base completed with its check digits is accepted, unless the result is one repeated digit |
| CheckDigits.CnpjVectorSums | src/components/schemas/formSchema.ts:38-41 | the sums of `calc(12)` and `calc(13)` for 11222333000181 are 102 and 120 |
| CheckDigits.CnpjVectorValid | src/components/schemas/formSchema.ts:26-46 | 11222333000181 is accepted |
| CheckDigits.CnpjVectorCorrupted | src/components/schemas/formSchema.ts:45 | changing the last digit of that CNPJ to 0 makes it rejected |
| FormSchema.AllFieldsComplete | src/components/schemas/formSchema.ts:48-109 | the list of keys the validator folds over contains every key of the schema |
| FormSchema.NormalizeOptional | src/components/schemas/formSchema.ts:56 | the transform keeps absent values absent and replaces a present value by its digits |
| FormSchema.CpfFieldAccepts | src/components/schemas/formSchema.ts:53-57 | `cpf` passes if and only if it is absent, holds no digit, or is a valid CPF; otherwise its only message is "CPF inválido" |
| FormSchema.CnpjFieldAccepts | src/components/schemas/formSchema.ts:66-70 | `cnpj` passes if and only if it is absent, holds no digit, or is a valid CNPJ; otherwise its only message is "CNPJ inválido" |
| FormSchema.TelefoneFieldAccepts | src/components/schemas/formSchema.ts:78-85 | `telefone` passes if and only if it is absent, holds no digit, or cleans to 10 or 11 digits |
| FormSchema.CelularFieldAccepts | src/components/schemas/formSchema.ts:87-91 | `celular` passes if and only if it cleans to 10 or 11 digits; an empty one gets both the required and the invalid message (zod 3 behaviour, see below) |
| FormSchema.EmailFieldAccepts | src/components/schemas/formSchema.ts:76 | `email` passes if and only if it is non-empty and the email check accepts it; an empty one gets both messages when the check rejects "" and only "Email é obrigatório" otherwise; a non-empty rejected one gets only "Email inválido" |
| FormSchema.RequiredFieldAccepts | src/components/schemas/formSchema.ts:94-99 | a `min(1)` address key passes if and only if it is non-empty, and an empty one gets exactly its one message |
| FormSchema.CepFieldAccepts | src/components/schemas/formSchema.ts:100-103 | `enderecoCEP` passes if and only if it matches the pattern as entered; an empty one gets both messages |
| FormSchema.CollectErrors | src/components/schemas/formSchema.ts:48-109 | the folded map has as keys exactly the failing keys among those visited, each mapped to all of its messages |
| FormSchema.AllErrors | src/components/schemas/formSchema.ts:48-109 | every key of the schema is evaluated: the map's keys are exactly the failing keys, each with all of its messages |
| FormSchema.Validate | src/components/schemas/formSchema.ts:48-109 | the result is success if and only if no check fails. A failure carries exactly the failing keys and their messages. A success carries the cleaned CPF/CNPJ/phones (valid or empty), the CEP as entered and well formed, the terms accepted, and every other key unchanged |
| FormSchema.NoErrorsParsedCanonical | src/components/schemas/formSchema.ts:48-109 | when no check fails, the parsed record is in the canonical form `Validate` promises |
| FormSchema.ParsedCanonical | src/components/schemas/formSchema.ts:53-108 | the transformed keys of an accepted record are digit-only and pass their checks; the untransformed keys are kept |
| FormSchema.FieldAcceptedIff | src/components/schemas/formSchema.ts:48-109 | a key's rule chain yields no message if and only if its value meets the plain acceptance condition |
| FormSchema.ValidateAccepts | src/components/schemas/formSchema.ts:48-109 | the schema accepts if and only if every key meets its acceptance condition |
| FormSchema.CollectErrorsSame | src/components/schemas/formSchema.ts:48-109 | two submissions with the same per-key messages fold to the same map |
| FormSchema.SameRuledValuesSameErrors | src/components/schemas/formSchema.ts:48-109 | a key's messages depend only on the values that some rule reads |
| FormSchema.ValidateReadsRuledValues | src/components/schemas/formSchema.ts:48-109 | two submissions agreeing on every value some rule reads get the same verdict and the same messages |
| FormSchema.DiscriminantIgnored | src/components/schemas/formSchema.ts:49 | `isPessoaFisica` selects no rule: flipping it changes neither the verdict nor the messages |
| FormSchema.VariantFieldOptionalAt | src/components/schemas/formSchema.ts:52-73 | a key that passes still passes once every individual and organisation field is left out |
| FormSchema.VariantFieldsOptional | src/components/schemas/formSchema.ts:52-73 | an accepted submission stays accepted with all individual and organisation fields left out, so neither variant's fields are ever required |
| FormSchema.CollectSingle | src/components/schemas/formSchema.ts:48-109 | if only one key can fail, the map holds that key alone |
| FormSchema.TermsUpdateKeepsOthers | src/components/schemas/formSchema.ts:106-108 | unticking the terms changes no other key's messages |
| FormSchema.TermsOnlyError | src/components/schemas/formSchema.ts:106-108 | an otherwise accepted submission with the terms unticked fails with exactly one entry: `aceitaTermos` with "Você deve aceitar os termos" |
| FormSchema.InvalidCpfReported | src/components/schemas/formSchema.ts:53-57 | a CPF that holds digits but fails the check always fails validation, with exactly "CPF inválido" on `cpf` |

Points where the code behaves differently from what a reader of the form
might expect, and which the model follows:

- **Variant fields are never required.** The individual's fields and the
  organisation's fields are not conditionally required by `isPessoaFisica`.
  The schema declares every one of them `.optional()` and never reads the
  flag (`VariantFieldsOptional`, `DiscriminantIgnored`). The parsed record
  also keeps whichever variant fields were sent; the inapplicable ones are
  not dropped.
- **The CEP is kept as entered.** It is not reduced to its 8 digits: the code
  only matches the pattern and never transforms the value, so a hyphen stays
  in the parsed record.
- **Phones are cleaned before they are matched.** Any text whose digits
  number 10 or 11 passes, whatever parentheses, spaces or other characters
  surround them.
- **Email uses zod's built-in check.** There is no pattern of the form's own.
- **A failed `min(1)` does not suppress the other checks.** `email` and
  `enderecoCEP` each carry two checks on one `z.string()`, and zod runs both.
  An empty `enderecoCEP` therefore gets both messages. An empty `email` gets
  both exactly when the email check rejects "" (`isEmail("")` false, as zod's
  own check does). For `celular`, the second message comes from a `.refine`
  placed after a `.transform`; the model follows zod 3, where that refinement
  still runs on a value that failed `min(1)`, so an empty `celular` gets both
  messages too.
- **Nothing is trimmed.** Surrounding whitespace stays in every value.

## Left out

- The React components, input masks, key filtering, `alert`, `reset` and
  `watch` are left out. They are presentation code that does not decide
  validity. The CPF mask's written form appears only in `FormatCpfRoundTrip`.
- zod's built-in email pattern is not modelled. `.email()` is the
  parameter `isEmail: string -> bool`, so every property holds for any
  email pattern.
- Type errors are left out: a key missing from a required string, or a
  value of the wrong type, is not modelled. `Form` is already typed, and an
  absent optional key is `None`.
- CelularErrors: follows zod 3 semantics, in which a `.refine` after a
  `.transform` still runs on a value that failed `min(1)`. The import
  `'zod'` does not pin a version; under zod 4 the transform pipe aborts on
  that failure, so an empty `celular` would get only "Celular é
  obrigatório" (`CelularObrigatorio`). `CelularFieldAccepts` states the zod 3
  outcome.
- The order of issues across keys is not modelled. Errors are a map from
  key to messages; within one key the messages keep zod's check order.
- `Validate` on an asynchronous parse is not modelled. The schema has no
  asynchronous refinement, so a synchronous parse gives the same result.
- `Calc`: requires 9 <= x <= 16. This is the range where the starting
  weight `x - 7` is the first weight of the repeating 2..9 cycle. The source
  calls `calc` only with 12 and 13, so every call the source makes is
  covered.
- JavaScript numbers are doubles, and the model uses unbounded integers.
  The sums involved are at most 14 × 9 × 11, far inside exact double range.
  All of them are non-negative, so JavaScript's `%` and Dafny's `%` agree.
