/** The zod object `formSchema`: each field's rule chain (optional or
    `min(1)`, a digit-cleaning transform, a pattern or check-digit refinement),
    evaluated on every field, with the failures collected per field. */
module FormSchema {
  import opened Digits
  import opened CheckDigits

  datatype Option<T> = None | Some(value: T)

  datatype Result<T, E> = Ok(value: T) | Err(error: E)

  /** The submitted values, typed as the schema declares them: `z.boolean()`,
      `z.string()` or `z.string().optional()` (`None` is `undefined`). The same
      shape is the parsed output, with the transformed fields replaced. */
  datatype Form = Form(
    isPessoaFisica: bool,
    // individual
    nome: Option<string>,
    cpf: Option<string>,
    dataNascimento: Option<string>,
    sexo: Option<string>,
    estadoCivil: Option<string>,
    // organisation
    razaoSocial: Option<string>,
    nomeFantasia: Option<string>,
    cnpj: Option<string>,
    inscricaoEstadual: Option<string>,
    dataAbertura: Option<string>,
    // contact
    email: string,
    telefone: Option<string>,
    celular: string,
    // address
    enderecoRua: string,
    enderecoNumero: string,
    enderecoComplemento: Option<string>,
    enderecoBairro: string,
    enderecoCidade: string,
    enderecoEstado: string,
    enderecoCEP: string,
    // terms
    aceitaTermos: bool)

  /** The keys of the schema, in declaration order. */
  datatype Field =
    | IsPessoaFisica | Nome | Cpf | DataNascimento | Sexo | EstadoCivil
    | RazaoSocial | NomeFantasia | Cnpj | InscricaoEstadual | DataAbertura
    | Email | Telefone | Celular
    | EnderecoRua | EnderecoNumero | EnderecoComplemento | EnderecoBairro
    | EnderecoCidade | EnderecoEstado | EnderecoCEP
    | AceitaTermos

  /** The messages of the schema's checks. */
  datatype Message =
    | CpfInvalido | CnpjInvalido | EmailObrigatorio | EmailInvalido | TelefoneInvalido
    | CelularObrigatorio | CelularInvalido | RuaObrigatoria | NumeroObrigatorio
    | BairroObrigatorio | CidadeObrigatoria | EstadoObrigatorio | CepObrigatorio
    | CepInvalido | TermosNaoAceitos

  /** The text shown for each message. */
  function Text(m: Message): string {
    match m
    case CpfInvalido => "CPF inválido"
    case CnpjInvalido => "CNPJ inválido"
    case EmailObrigatorio => "Email é obrigatório"
    case EmailInvalido => "Email inválido"
    case TelefoneInvalido => "Telefone inválido"
    case CelularObrigatorio => "Celular é obrigatório"
    case CelularInvalido => "Celular inválido"
    case RuaObrigatoria => "Rua é obrigatória"
    case NumeroObrigatorio => "Número é obrigatório"
    case BairroObrigatorio => "Bairro é obrigatório"
    case CidadeObrigatoria => "Cidade é obrigatória"
    case EstadoObrigatorio => "Estado é obrigatório"
    case CepObrigatorio => "CEP é obrigatório"
    case CepInvalido => "CEP inválido"
    case TermosNaoAceitos => "Você deve aceitar os termos"
  }

  /** Field name to the messages of its failed checks, in check order. */
  type Errors = map<Field, seq<Message>>

  const AllFields: seq<Field> :=
    [ IsPessoaFisica, Nome, Cpf, DataNascimento, Sexo, EstadoCivil,
      RazaoSocial, NomeFantasia, Cnpj, InscricaoEstadual, DataAbertura,
      Email, Telefone, Celular,
      EnderecoRua, EnderecoNumero, EnderecoComplemento, EnderecoBairro,
      EnderecoCidade, EnderecoEstado, EnderecoCEP,
      AceitaTermos ]

  lemma AllFieldsComplete(f: Field)
    ensures f in AllFields
  {
    match f
    case IsPessoaFisica => assert AllFields[0] == f;
    case Nome => assert AllFields[1] == f;
    case Cpf => assert AllFields[2] == f;
    case DataNascimento => assert AllFields[3] == f;
    case Sexo => assert AllFields[4] == f;
    case EstadoCivil => assert AllFields[5] == f;
    case RazaoSocial => assert AllFields[6] == f;
    case NomeFantasia => assert AllFields[7] == f;
    case Cnpj => assert AllFields[8] == f;
    case InscricaoEstadual => assert AllFields[9] == f;
    case DataAbertura => assert AllFields[10] == f;
    case Email => assert AllFields[11] == f;
    case Telefone => assert AllFields[12] == f;
    case Celular => assert AllFields[13] == f;
    case EnderecoRua => assert AllFields[14] == f;
    case EnderecoNumero => assert AllFields[15] == f;
    case EnderecoComplemento => assert AllFields[16] == f;
    case EnderecoBairro => assert AllFields[17] == f;
    case EnderecoCidade => assert AllFields[18] == f;
    case EnderecoEstado => assert AllFields[19] == f;
    case EnderecoCEP => assert AllFields[20] == f;
    case AceitaTermos => assert AllFields[21] == f;
  }

  // ------------------------------------------------------------ field rules

  /** `.optional().transform(val => val ? cleanNumber(val) : val)`: a present
      value is replaced by its digits (an empty one is left as it is, which is
      the same thing). */
  function NormalizeOptional(v: Option<string>): (r: Option<string>)
    ensures r.None? <==> v.None?
    ensures r.Some? ==> r.value == CleanNumber(v.value) && AllDigits(r.value)
  {
    match v
    case None => None
    case Some(s) => if s != "" then Some(CleanNumber(s)) else v
  }

  /** `.refine(val => !val || validarCPF(val), …)` after that transform. */
  function CpfErrors(v: Option<string>): seq<Message> {
    var t := NormalizeOptional(v);
    if t.None? || t.value == "" || ValidCPF(t.value) then [] else [CpfInvalido]
  }

  /** `.refine(val => !val || validarCNPJ(val), …)` after that transform. */
  function CnpjErrors(v: Option<string>): seq<Message> {
    var t := NormalizeOptional(v);
    if t.None? || t.value == "" || ValidCNPJ(t.value) then [] else [CnpjInvalido]
  }

  /** `.refine(val => !val || /^\d{10,11}$/.test(val), …)` after that transform. */
  function TelefoneErrors(v: Option<string>): seq<Message> {
    var t := NormalizeOptional(v);
    if t.None? || t.value == "" || PhonePattern(t.value) then [] else [TelefoneInvalido]
  }

  /** `z.string().min(1, msg)`. */
  function MinOneErrors(s: string, msg: Message): seq<Message> {
    if |s| < 1 then [msg] else []
  }

  /** `.min(1, …).email(…)`: both checks of the string run; `isEmail` stands for
      zod's built-in address pattern. */
  function EmailErrors(s: string, isEmail: string -> bool): seq<Message> {
    MinOneErrors(s, EmailObrigatorio) + (if isEmail(s) then [] else [EmailInvalido])
  }

  /** `.min(1, …).transform(cleanNumber).refine(/^\d{10,11}$/)`. */
  function CelularErrors(s: string): seq<Message> {
    MinOneErrors(s, CelularObrigatorio) + (if PhonePattern(CleanNumber(s)) then [] else [CelularInvalido])
  }

  /** `.min(1, …).regex(/^\d{5}-?\d{3}$/, …)` on the value as entered. */
  function CepErrors(s: string): seq<Message> {
    MinOneErrors(s, CepObrigatorio) + (if CepPattern(s) then [] else [CepInvalido])
  }

  /** `z.boolean().refine(val => val === true, …)`. */
  function TermosErrors(b: bool): seq<Message> {
    if b then [] else [TermosNaoAceitos]
  }

  /** The messages of every failed check of one field. Fields with no check
      (plain `z.boolean()`, `z.string().optional()`) never fail. */
  function FieldErrors(raw: Form, isEmail: string -> bool, f: Field): seq<Message> {
    match f
    case Cpf => CpfErrors(raw.cpf)
    case Cnpj => CnpjErrors(raw.cnpj)
    case Email => EmailErrors(raw.email, isEmail)
    case Telefone => TelefoneErrors(raw.telefone)
    case Celular => CelularErrors(raw.celular)
    case EnderecoRua => MinOneErrors(raw.enderecoRua, RuaObrigatoria)
    case EnderecoNumero => MinOneErrors(raw.enderecoNumero, NumeroObrigatorio)
    case EnderecoBairro => MinOneErrors(raw.enderecoBairro, BairroObrigatorio)
    case EnderecoCidade => MinOneErrors(raw.enderecoCidade, CidadeObrigatoria)
    case EnderecoEstado => MinOneErrors(raw.enderecoEstado, EstadoObrigatorio)
    case EnderecoCEP => CepErrors(raw.enderecoCEP)
    case AceitaTermos => TermosErrors(raw.aceitaTermos)
    case _ => []
  }

  // ----------------------------------------------- what each field accepts

  /** An optional digit field is accepted when absent, when it holds no digit
      (it cleans to "" and `!val` holds), or when its check accepts it. */
  lemma CpfFieldAccepts(v: Option<string>)
    ensures CpfErrors(v) == [] <==> v.None? || NoDigits(v.value) || ValidCPF(v.value)
    ensures CpfErrors(v) != [] ==> CpfErrors(v) == [CpfInvalido]
  {
    if v.Some? {
      CleanEmptyIff(v.value);
      ValidCPFOfClean(v.value);
    }
  }

  lemma CnpjFieldAccepts(v: Option<string>)
    ensures CnpjErrors(v) == [] <==> v.None? || NoDigits(v.value) || ValidCNPJ(v.value)
    ensures CnpjErrors(v) != [] ==> CnpjErrors(v) == [CnpjInvalido]
  {
    if v.Some? {
      CleanEmptyIff(v.value);
      ValidCNPJOfClean(v.value);
    }
  }

  lemma TelefoneFieldAccepts(v: Option<string>)
    ensures TelefoneErrors(v) == [] <==>
      v.None? || NoDigits(v.value) || 10 <= |CleanNumber(v.value)| <= 11
  {
    if v.Some? {
      CleanEmptyIff(v.value);
    }
  }

  /** The mobile number is required and must clean to 10 or 11 digits; an empty
      one gets both messages. */
  lemma CelularFieldAccepts(s: string)
    ensures CelularErrors(s) == [] <==> 10 <= |CleanNumber(s)| <= 11
    ensures s == "" ==> CelularErrors(s) == [CelularObrigatorio, CelularInvalido]
  {
  }

  /** The email is accepted exactly when it is non-empty and the email check
      accepts it; an empty one that the check rejects gets both messages. */
  lemma EmailFieldAccepts(s: string, isEmail: string -> bool)
    ensures EmailErrors(s, isEmail) == [] <==> s != "" && isEmail(s)
    ensures s == "" && !isEmail(s) ==> EmailErrors(s, isEmail) == [EmailObrigatorio, EmailInvalido]
    ensures s != "" && !isEmail(s) ==> EmailErrors(s, isEmail) == [EmailInvalido]
    ensures s == "" && isEmail(s) ==> EmailErrors(s, isEmail) == [EmailObrigatorio]
  {
  }

  /** A `min(1)` key passes exactly when it is non-empty, and otherwise carries
      its one message. */
  lemma RequiredFieldAccepts(s: string, msg: Message)
    ensures MinOneErrors(s, msg) == [] <==> s != ""
    ensures s == "" ==> MinOneErrors(s, msg) == [msg]
  {
  }

  /** The CEP is accepted exactly when it matches the pattern as entered. */
  lemma CepFieldAccepts(s: string)
    ensures CepErrors(s) == [] <==> CepPattern(s)
    ensures s == "" ==> CepErrors(s) == [CepObrigatorio, CepInvalido]
  {
  }

  // ------------------------------------------------------------ aggregation

  /** Folds the field checks over `fields`, keeping every field that failed. */
  function CollectErrors(raw: Form, isEmail: string -> bool, fields: seq<Field>): (m: Errors)
    ensures forall f :: f in m <==> f in fields && FieldErrors(raw, isEmail, f) != []
    ensures forall f :: f in m ==> m[f] == FieldErrors(raw, isEmail, f)
  {
    if fields == [] then map[]
    else
      var m := CollectErrors(raw, isEmail, fields[..|fields| - 1]);
      var f := fields[|fields| - 1];
      assert fields == fields[..|fields| - 1] + [f];
      var e := FieldErrors(raw, isEmail, f);
      if e == [] then m else m[f := e]
  }

  /** The errors of every key of the schema. */
  function AllErrors(raw: Form, isEmail: string -> bool): (m: Errors)
    ensures forall f :: f in m <==> FieldErrors(raw, isEmail, f) != []
    ensures forall f :: f in m ==> m[f] == FieldErrors(raw, isEmail, f)
  {
    forall f ensures f in AllFields {
      AllFieldsComplete(f);
    }
    CollectErrors(raw, isEmail, AllFields)
  }

  /** The parsed value: transformed fields replaced, every other key kept. */
  function Parsed(raw: Form): Form {
    raw.(cpf := NormalizeOptional(raw.cpf),
         cnpj := NormalizeOptional(raw.cnpj),
         telefone := NormalizeOptional(raw.telefone),
         celular := CleanNumber(raw.celular))
  }

  /** `formSchema.safeParse(raw)`: every field rule is evaluated; the result is
      the parsed record when none fails, and otherwise the messages of every
      failing field (and only of those). */
  function Validate(raw: Form, isEmail: string -> bool): (r: Result<Form, Errors>)
    ensures r.Ok? <==> forall f :: FieldErrors(raw, isEmail, f) == []
    ensures r.Err? ==> forall f :: f in r.error <==> FieldErrors(raw, isEmail, f) != []
    ensures r.Err? ==> forall f :: f in r.error ==> r.error[f] == FieldErrors(raw, isEmail, f)
    ensures r.Ok? ==> DigitFieldsCanonical(raw, r.value) && OtherFieldsKept(raw, r.value)
  {
    var errors := AllErrors(raw, isEmail);
    if errors == map[] then
      NoErrorsParsedCanonical(raw, isEmail);
      Ok(Parsed(raw))
    else
      Err(errors)
  }

  /** What an accepted submission parses to: the digit fields in digit-only
      form, the identifiers valid (or empty), the mobile number 10 or 11
      digits, the CEP exactly as entered and well formed, the terms accepted. */
  predicate DigitFieldsCanonical(raw: Form, out: Form) {
    && (out.cpf.None? <==> raw.cpf.None?)
    && (out.cpf.Some? ==> out.cpf.value == CleanNumber(raw.cpf.value)
                          && (out.cpf.value == "" || ValidCPF(out.cpf.value)))
    && (out.cnpj.None? <==> raw.cnpj.None?)
    && (out.cnpj.Some? ==> out.cnpj.value == CleanNumber(raw.cnpj.value)
                           && (out.cnpj.value == "" || ValidCNPJ(out.cnpj.value)))
    && (out.telefone.None? <==> raw.telefone.None?)
    && (out.telefone.Some? ==> out.telefone.value == CleanNumber(raw.telefone.value)
                               && (out.telefone.value == "" || PhonePattern(out.telefone.value)))
    && out.celular == CleanNumber(raw.celular) && PhonePattern(out.celular)
    && out.enderecoCEP == raw.enderecoCEP && CepPattern(out.enderecoCEP)
    && out.aceitaTermos
  }

  /** The keys without a transform come out as they went in. */
  predicate OtherFieldsKept(raw: Form, out: Form) {
    && out.isPessoaFisica == raw.isPessoaFisica
    && out.nome == raw.nome && out.dataNascimento == raw.dataNascimento
    && out.sexo == raw.sexo && out.estadoCivil == raw.estadoCivil
    && out.razaoSocial == raw.razaoSocial && out.nomeFantasia == raw.nomeFantasia
    && out.inscricaoEstadual == raw.inscricaoEstadual && out.dataAbertura == raw.dataAbertura
    && out.email == raw.email && out.enderecoComplemento == raw.enderecoComplemento
    && out.enderecoRua == raw.enderecoRua && out.enderecoNumero == raw.enderecoNumero
    && out.enderecoBairro == raw.enderecoBairro && out.enderecoCidade == raw.enderecoCidade
    && out.enderecoEstado == raw.enderecoEstado
  }

  lemma NoErrorsParsedCanonical(raw: Form, isEmail: string -> bool)
    requires forall f :: FieldErrors(raw, isEmail, f) == []
    ensures DigitFieldsCanonical(raw, Parsed(raw)) && OtherFieldsKept(raw, Parsed(raw))
  {
    assert FieldErrors(raw, isEmail, Cpf) == [] && FieldErrors(raw, isEmail, Cnpj) == [];
    assert FieldErrors(raw, isEmail, Telefone) == [] && FieldErrors(raw, isEmail, Celular) == [];
    assert FieldErrors(raw, isEmail, EnderecoCEP) == [] && FieldErrors(raw, isEmail, AceitaTermos) == [];
    ParsedCanonical(raw);
  }

  lemma ParsedCanonical(raw: Form)
    requires CpfErrors(raw.cpf) == [] && CnpjErrors(raw.cnpj) == []
    requires TelefoneErrors(raw.telefone) == [] && CelularErrors(raw.celular) == []
    requires CepErrors(raw.enderecoCEP) == [] && TermosErrors(raw.aceitaTermos) == []
    ensures DigitFieldsCanonical(raw, Parsed(raw)) && OtherFieldsKept(raw, Parsed(raw))
  {
    if raw.cpf.Some? {
      ValidCPFOfClean(raw.cpf.value);
    }
    if raw.cnpj.Some? {
      ValidCNPJOfClean(raw.cnpj.value);
    }
  }

  // ------------------------------------------------- the schema as a whole

  /** What each field's rule chain accepts, stated without the messages. */
  predicate FieldAccepted(raw: Form, isEmail: string -> bool, f: Field) {
    match f
    case Cpf => raw.cpf.None? || NoDigits(raw.cpf.value) || ValidCPF(raw.cpf.value)
    case Cnpj => raw.cnpj.None? || NoDigits(raw.cnpj.value) || ValidCNPJ(raw.cnpj.value)
    case Email => raw.email != "" && isEmail(raw.email)
    case Telefone =>
      raw.telefone.None? || NoDigits(raw.telefone.value)
      || 10 <= |CleanNumber(raw.telefone.value)| <= 11
    case Celular => 10 <= |CleanNumber(raw.celular)| <= 11
    case EnderecoRua => raw.enderecoRua != ""
    case EnderecoNumero => raw.enderecoNumero != ""
    case EnderecoBairro => raw.enderecoBairro != ""
    case EnderecoCidade => raw.enderecoCidade != ""
    case EnderecoEstado => raw.enderecoEstado != ""
    case EnderecoCEP => CepPattern(raw.enderecoCEP)
    case AceitaTermos => raw.aceitaTermos
    case _ => true
  }

  lemma FieldAcceptedIff(raw: Form, isEmail: string -> bool, f: Field)
    ensures FieldErrors(raw, isEmail, f) == [] <==> FieldAccepted(raw, isEmail, f)
  {
    match f
    case Cpf => CpfFieldAccepts(raw.cpf);
    case Cnpj => CnpjFieldAccepts(raw.cnpj);
    case Telefone => TelefoneFieldAccepts(raw.telefone);
    case Celular => CelularFieldAccepts(raw.celular);
    case EnderecoCEP => CepFieldAccepts(raw.enderecoCEP);
    case _ =>
  }

  /** `Validate` succeeds exactly when every field is accepted. */
  lemma ValidateAccepts(raw: Form, isEmail: string -> bool)
    ensures Validate(raw, isEmail).Ok? <==> forall f :: FieldAccepted(raw, isEmail, f)
  {
    forall f ensures FieldErrors(raw, isEmail, f) == [] <==> FieldAccepted(raw, isEmail, f) {
      FieldAcceptedIff(raw, isEmail, f);
    }
  }

  /** The values the rules read. */
  predicate SameRuledValues(a: Form, b: Form) {
    && a.cpf == b.cpf && a.cnpj == b.cnpj && a.email == b.email
    && a.telefone == b.telefone && a.celular == b.celular
    && a.enderecoRua == b.enderecoRua && a.enderecoNumero == b.enderecoNumero
    && a.enderecoBairro == b.enderecoBairro && a.enderecoCidade == b.enderecoCidade
    && a.enderecoEstado == b.enderecoEstado && a.enderecoCEP == b.enderecoCEP
    && a.aceitaTermos == b.aceitaTermos
  }

  /** Folding equal field checks gives equal maps. */
  lemma {:induction false} CollectErrorsSame(a: Form, b: Form, isEmail: string -> bool, fields: seq<Field>)
    requires forall f :: FieldErrors(a, isEmail, f) == FieldErrors(b, isEmail, f)
    ensures CollectErrors(a, isEmail, fields) == CollectErrors(b, isEmail, fields)
  {
    if fields != [] {
      CollectErrorsSame(a, b, isEmail, fields[..|fields| - 1]);
    }
  }

  /** Two submissions that agree on the ruled values get the same verdict and
      the same messages, whatever their other keys hold. */
  lemma ValidateReadsRuledValues(a: Form, b: Form, isEmail: string -> bool)
    requires SameRuledValues(a, b)
    ensures Validate(a, isEmail).Ok? == Validate(b, isEmail).Ok?
    ensures Validate(a, isEmail).Err? ==> Validate(a, isEmail).error == Validate(b, isEmail).error
  {
    forall f ensures FieldErrors(a, isEmail, f) == FieldErrors(b, isEmail, f) {
      SameRuledValuesSameErrors(a, b, isEmail, f);
    }
    CollectErrorsSame(a, b, isEmail, AllFields);
  }

  lemma SameRuledValuesSameErrors(a: Form, b: Form, isEmail: string -> bool, f: Field)
    requires SameRuledValues(a, b)
    ensures FieldErrors(a, isEmail, f) == FieldErrors(b, isEmail, f)
  {
  }

  /** `isPessoaFisica` selects nothing: flipping it changes no check. */
  lemma DiscriminantIgnored(raw: Form, isEmail: string -> bool, b: bool)
    ensures Validate(raw.(isPessoaFisica := b), isEmail).Ok? == Validate(raw, isEmail).Ok?
    ensures Validate(raw, isEmail).Err? ==>
      Validate(raw.(isPessoaFisica := b), isEmail).error == Validate(raw, isEmail).error
  {
    ValidateReadsRuledValues(raw, raw.(isPessoaFisica := b), isEmail);
  }

  /** The submission with every individual and organisation field left out. */
  function WithoutVariantFields(raw: Form): Form {
    raw.(nome := None, cpf := None, dataNascimento := None, sexo := None,
         estadoCivil := None, razaoSocial := None, nomeFantasia := None,
         cnpj := None, inscricaoEstadual := None, dataAbertura := None)
  }

  /** Neither the individual's fields nor the organisation's are ever required:
      an accepted submission stays accepted with all of them left out. */
  lemma VariantFieldsOptional(raw: Form, isEmail: string -> bool)
    requires Validate(raw, isEmail).Ok?
    ensures Validate(WithoutVariantFields(raw), isEmail).Ok?
  {
    forall f ensures FieldErrors(WithoutVariantFields(raw), isEmail, f) == [] {
      assert FieldErrors(raw, isEmail, f) == [];
      VariantFieldOptionalAt(raw, isEmail, f);
    }
  }

  lemma VariantFieldOptionalAt(raw: Form, isEmail: string -> bool, f: Field)
    requires FieldErrors(raw, isEmail, f) == []
    ensures FieldErrors(WithoutVariantFields(raw), isEmail, f) == []
  {
  }

  /** Folding checks of which only `g` can fail gives at most the one entry. */
  lemma CollectSingle(raw: Form, isEmail: string -> bool, fields: seq<Field>, g: Field)
    requires forall f :: f != g ==> FieldErrors(raw, isEmail, f) == []
    requires FieldErrors(raw, isEmail, g) != []
    ensures CollectErrors(raw, isEmail, fields)
         == if g in fields then map[g := FieldErrors(raw, isEmail, g)] else map[]
  {
    var m := CollectErrors(raw, isEmail, fields);
    if g in fields {
      assert m.Keys == {g};
    } else {
      assert m.Keys == {};
    }
  }

  /** An otherwise accepted submission with the terms unticked fails on that
      key alone, with the terms message. */
  lemma TermsOnlyError(raw: Form, isEmail: string -> bool)
    requires Validate(raw, isEmail).Ok?
    ensures Validate(raw.(aceitaTermos := false), isEmail)
         == Err(map[AceitaTermos := [TermosNaoAceitos]])
  {
    var raw' := raw.(aceitaTermos := false);
    forall f | f != AceitaTermos ensures FieldErrors(raw', isEmail, f) == [] {
      assert FieldErrors(raw, isEmail, f) == [];
      TermsUpdateKeepsOthers(raw, isEmail, f);
    }
    assert FieldErrors(raw', isEmail, AceitaTermos) == [TermosNaoAceitos];
    AllFieldsComplete(AceitaTermos);
    CollectSingle(raw', isEmail, AllFields, AceitaTermos);
  }

  lemma TermsUpdateKeepsOthers(raw: Form, isEmail: string -> bool, f: Field)
    requires f != AceitaTermos
    ensures FieldErrors(raw.(aceitaTermos := false), isEmail, f) == FieldErrors(raw, isEmail, f)
  {
  }

  /** A CPF that holds digits but fails the check is reported on the `cpf` key,
      with the one message, whatever the other fields hold. */
  lemma InvalidCpfReported(raw: Form, isEmail: string -> bool, v: string)
    requires !NoDigits(v) && !ValidCPF(v)
    ensures var r := Validate(raw.(cpf := Some(v)), isEmail);
      r.Err? && Cpf in r.error && r.error[Cpf] == [CpfInvalido]
  {
    CpfFieldAccepts(Some(v));
    assert FieldErrors(raw.(cpf := Some(v)), isEmail, Cpf) == [CpfInvalido];
  }
}
