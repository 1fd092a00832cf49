/** The error-message resolver of validacao.js: the ordered list of validity
    failure reasons, the per-kind message table, and the resolver that walks the
    list and keeps the message of the last flagged reason. */
module Messages {

  /** The four native validity failure reasons the resolver consults. */
  datatype Reason = ValueMissing | TypeMismatch | PatternMismatch | CustomError

  /** tiposDeErro: the order in which the resolver visits the reasons. */
  const ReasonOrder: seq<Reason> := [ValueMissing, TypeMismatch, PatternMismatch, CustomError]

  /** The position of a reason in ReasonOrder. */
  function Rank(r: Reason): (i: nat)
    ensures i < |ReasonOrder| && ReasonOrder[i] == r
  {
    match r
    case ValueMissing => 0
    case TypeMismatch => 1
    case PatternMismatch => 2
    case CustomError => 3
  }

  /** mensagemDeErro: for each field kind (the field's data-tipo), the message
      shown for some of the reasons. */
  const MessageTable: map<string, map<Reason, string>> := map[
    "nome" := map[
      ValueMissing := "O campo nome não pode estar vazio."],
    "email" := map[
      ValueMissing := "O campo email não pode estar vazio.",
      TypeMismatch := "O email digitado não é válido."],
    "senha" := map[
      ValueMissing := "O campo senha não pode estar vazio.",
      PatternMismatch := "A senha deve conter entre 6 e 12 caracteres, e deve conter pelo menos uma letra maiúscula, uma letra minúscula e um número."],
    "dataNascimento" := map[
      ValueMissing := "O campo data de nascimento não pode estar vazio.",
      CustomError := "Você deve ser maior de 18 anos para se cadastrar."],
    "cpf" := map[
      ValueMissing := "O campo CPF não pode estar vazio.",
      CustomError := "O CPF digitado não é válido."],
    "cep" := map[
      ValueMissing := "O campo CEP não pode estar vazio.",
      PatternMismatch := "O CEP digitado não é válido.",
      CustomError := "Não foi possível buscar o CEP."],
    "logradouro" := map[
      ValueMissing := "O campo logradouro não pode estar vazio."],
    "cidade" := map[
      ValueMissing := "O campo cidade não pode estar vazio."],
    "estado" := map[
      ValueMissing := "O campo estado não pode estar vazio."],
    "preco" := map[
      ValueMissing := "O campo preço não pode estar vazio."]
  ]

  /** What the resolver yields: a message, JavaScript's undefined when the kind's
      table has no entry for the reason, or a TypeError when the kind has no table
      at all and some reason is flagged (indexing undefined throws). */
  datatype Resolution = Message(text: string) | Undefined | TypeError

  /** mensagemDeErro[kind][reason] for a kind that has a table. */
  function Lookup(entries: map<Reason, string>, r: Reason): (res: Resolution)
    ensures res != TypeError
    ensures res.Message? <==> r in entries
    ensures res.Message? ==> res.text == entries[r]
  {
    if r in entries then Message(entries[r]) else Undefined
  }

  /** The flagged reason that comes latest in ReasonOrder. */
  function Winner(flagged: set<Reason>): (w: Reason)
    requires flagged != {}
    ensures w in flagged
    ensures forall r :: r in flagged ==> Rank(r) <= Rank(w)
  {
    if CustomError in flagged then CustomError
    else if PatternMismatch in flagged then PatternMismatch
    else if TypeMismatch in flagged then TypeMismatch
    else
      var r :| r in flagged;
      assert r == ValueMissing;
      ValueMissing
  }

  /** What mostraMensagemDeErro yields, stated as a priority rule: nothing flagged
      gives the empty message; otherwise the latest flagged reason decides. */
  function Resolve(kind: string, flagged: set<Reason>): (res: Resolution)
    ensures res == Message("") <==> flagged == {}
    ensures res == TypeError <==> flagged != {} && kind !in MessageTable
  {
    TableEntriesNonEmpty();
    if flagged == {} then Message("")
    else if kind !in MessageTable then TypeError
    else Lookup(MessageTable[kind], Winner(flagged))
  }

  /** Every message in the table is non-empty, so the empty message means that
      nothing is flagged. */
  lemma TableEntriesNonEmpty()
    ensures forall kind, r :: kind in MessageTable && r in MessageTable[kind] ==> MessageTable[kind][r] != ""
  {
  }

  /** The reasons among the first i of ReasonOrder that are flagged. */
  function FlaggedBefore(flagged: set<Reason>, i: int): (s: set<Reason>)
    ensures s <= flagged
    ensures forall r :: r in s <==> r in flagged && Rank(r) < i
  {
    set r | r in flagged && Rank(r) < i
  }

  /** mostraMensagemDeErro: starts from the empty message and, for every reason in
      order that is flagged, overwrites the message with the kind's table entry. */
  method ShowErrorMessage(kind: string, flagged: set<Reason>) returns (res: Resolution)
    ensures res == Resolve(kind, flagged)
  {
    res := Message("");
    for i := 0 to |ReasonOrder|
      invariant FlaggedBefore(flagged, i) == {} ==> res == Message("")
      invariant FlaggedBefore(flagged, i) != {} ==>
        kind in MessageTable && res == Lookup(MessageTable[kind], Winner(FlaggedBefore(flagged, i)))
    {
      var erro := ReasonOrder[i];
      if erro in flagged {
        if kind !in MessageTable {
          return TypeError;
        }
        res := Lookup(MessageTable[kind], erro);
        LatestIsWinner(flagged, i);
      } else {
        assert FlaggedBefore(flagged, i + 1) == FlaggedBefore(flagged, i);
      }
    }
    assert FlaggedBefore(flagged, |ReasonOrder|) == flagged;
  }

  /** When the reason at position i is flagged, it is the latest flagged one
      among the first i + 1. */
  lemma LatestIsWinner(flagged: set<Reason>, i: nat)
    requires i < |ReasonOrder| && ReasonOrder[i] in flagged
    ensures Winner(FlaggedBefore(flagged, i + 1)) == ReasonOrder[i]
  {
    var w := Winner(FlaggedBefore(flagged, i + 1));
    assert Rank(ReasonOrder[i]) == i;
    assert Rank(w) == i;
  }

  /** With nothing flagged the message is empty, whatever the kind. */
  lemma ResolveNothingFlagged(kind: string)
    ensures Resolve(kind, {}) == Message("")
  {
  }

  /** The last flagged reason in order wins over every earlier flagged one. */
  lemma ResolveLatestWins(kind: string, flagged: set<Reason>, r: Reason)
    requires kind in MessageTable
    requires r in flagged
    requires forall q :: q in flagged ==> Rank(q) <= Rank(r)
    ensures Resolve(kind, flagged) == Lookup(MessageTable[kind], r)
  {
    var w := Winner(flagged);
    assert ReasonOrder[Rank(w)] == w && ReasonOrder[Rank(r)] == r;
  }

  /** Every kind in the table has a message for a missing value, so a field whose
      only failure is a missing value always gets a message. */
  lemma ResolveValueMissingAlone(kind: string)
    requires kind in MessageTable
    ensures Resolve(kind, {ValueMissing}).Message?
    ensures Resolve(kind, {ValueMissing}).text != ""
  {
  }

  /** A kind without an entry for the winning reason yields undefined: a name
      that fails its type check, for example, or a CPF with a missing value and a
      pattern mismatch. */
  lemma ResolveUndefinedExamples()
    ensures Resolve("nome", {TypeMismatch}) == Undefined
    ensures Resolve("cpf", {ValueMissing, PatternMismatch}) == Undefined
    ensures Resolve("cpf", {ValueMissing, CustomError}) == Message("O CPF digitado não é válido.")
  {
    assert Winner({ValueMissing, PatternMismatch}) == PatternMismatch;
    assert Winner({ValueMissing, CustomError}) == CustomError;
  }

  /** A kind outside the table throws as soon as any reason is flagged. */
  lemma ResolveUnknownKindThrows(kind: string, flagged: set<Reason>)
    requires kind !in MessageTable
    ensures Resolve(kind, flagged) == TypeError <==> flagged != {}
  {
  }
}
