/**
 * The biography questionnaire: its thirteen fields in question order, the per-field validation
 * rules, the answer record, the text document built from the answers and the database row the
 * answers are stored as (components/biography-form.tsx, types/supabase.ts).
 */
module Biography {
  import opened Options
  import opened StringOps

  datatype Field =
    | NameAndRole | CompanyName | Niche | HelpDescription | Services | Experience | Achievements
    | Recognition | Differential | BestClients | PreferredClients | AvoidClients | AdditionalInfo

  /** The order in which the wizard asks the questions. */
  const Order: seq<Field> := [
    NameAndRole, CompanyName, Niche, HelpDescription, Services, Experience, Achievements,
    Recognition, Differential, BestClients, PreferredClients, AvoidClients, AdditionalInfo
  ]

  const QuestionCount: nat := 13

  /** The position of a field in the question order: every field is asked exactly once. */
  function QuestionIndex(f: Field): (i: nat)
    ensures i < |Order| && Order[i] == f
    ensures forall j :: 0 <= j < |Order| && Order[j] == f ==> j == i
  {
    match f
    case NameAndRole => 0
    case CompanyName => 1
    case Niche => 2
    case HelpDescription => 3
    case Services => 4
    case Experience => 5
    case Achievements => 6
    case Recognition => 7
    case Differential => 8
    case BestClients => 9
    case PreferredClients => 10
    case AvoidClients => 11
    case AdditionalInfo => 12
  }

  /** The fields the document omits when their answer is empty. */
  predicate Optional(f: Field) {
    f == Recognition || f == AvoidClients || f == AdditionalInfo
  }

  /** One schema rule: a minimum length, a maximum length, or any string at all. */
  datatype Rule = AtLeast(min: nat) | AtMost(max: nat) | AnyText

  predicate Accepts(rule: Rule, answer: string) {
    match rule
    case AtLeast(n) => n <= |answer|
    case AtMost(n) => |answer| <= n
    case AnyText => true
  }

  /** The schema's rule for each field, as its table states it. */
  function RuleOf(f: Field): Rule {
    match f
    case NameAndRole => AtLeast(2)
    case CompanyName => AtLeast(2)
    case Niche => AtLeast(2)
    case HelpDescription => AtLeast(10)
    case Services => AtLeast(10)
    case Experience => AtLeast(1)
    case Achievements => AtLeast(10)
    case Recognition => AnyText
    case Differential => AtLeast(10)
    case BestClients => AtLeast(10)
    case PreferredClients => AtLeast(10)
    case AvoidClients => AnyText
    case AdditionalInfo => AtMost(500)
  }

  /** Validation of the one field being asked, as the wizard runs it on every submit. */
  function Validate(f: Field, answer: string): (ok: bool)
    ensures (f == NameAndRole || f == CompanyName || f == Niche) ==> (ok <==> |answer| >= 2)
    ensures f == Experience ==> (ok <==> |answer| >= 1)
    ensures (f == HelpDescription || f == Services || f == Achievements || f == Differential
             || f == BestClients || f == PreferredClients) ==> (ok <==> |answer| >= 10)
    ensures (f == Recognition || f == AvoidClients) ==> ok
    ensures f == AdditionalInfo ==> (ok <==> |answer| <= 500)
    ensures !Optional(f) && answer == "" ==> !ok
    ensures Optional(f) && answer == "" ==> ok
  {
    Accepts(RuleOf(f), answer)
  }

  /** A complete set of answers, one per field. */
  datatype Answers = Answers(
    nameAndRole: string, companyName: string, niche: string, helpDescription: string,
    services: string, experience: string, achievements: string, recognition: string,
    differential: string, bestClients: string, preferredClients: string,
    avoidClients: string, additionalInfo: string)

  function Get(a: Answers, f: Field): string {
    match f
    case NameAndRole => a.nameAndRole
    case CompanyName => a.companyName
    case Niche => a.niche
    case HelpDescription => a.helpDescription
    case Services => a.services
    case Experience => a.experience
    case Achievements => a.achievements
    case Recognition => a.recognition
    case Differential => a.differential
    case BestClients => a.bestClients
    case PreferredClients => a.preferredClients
    case AvoidClients => a.avoidClients
    case AdditionalInfo => a.additionalInfo
  }

  /** A map of saved answers that holds every field. */
  predicate Complete(saved: map<Field, string>) {
    forall f: Field :: f in saved
  }

  /** The answer record read off a complete map of saved answers. */
  function FromSaved(saved: map<Field, string>): (a: Answers)
    requires Complete(saved)
    ensures forall f: Field :: Get(a, f) == saved[f]
  {
    Answers(
      saved[NameAndRole], saved[CompanyName], saved[Niche], saved[HelpDescription],
      saved[Services], saved[Experience], saved[Achievements], saved[Recognition],
      saved[Differential], saved[BestClients], saved[PreferredClients],
      saved[AvoidClients], saved[AdditionalInfo])
  }

  /** Every answer meets its field's rule. */
  predicate AllValid(a: Answers) {
    forall f: Field :: Validate(f, Get(a, f))
  }

  /** The fixed label each document line starts with. */
  function Label(f: Field): string {
    match f
    case NameAndRole => "Nome e Cargo: "
    case CompanyName => "Empresa: "
    case Niche => "Nicho: "
    case HelpDescription => "Como ajuda: "
    case Services => "Serviços: "
    case Experience => "Experiência: "
    case Achievements => "Conquistas: "
    case Recognition => "Reconhecimento: "
    case Differential => "Diferencial: "
    case BestClients => "Melhores clientes: "
    case PreferredClients => "Clientes preferidos: "
    case AvoidClients => "Clientes a evitar: "
    case AdditionalInfo => "Informações adicionais: "
  }

  function Line(f: Field, answer: string): string {
    Label(f) + answer
  }

  /** One entry of the document's array literal: a labelled line, or null for an empty optional answer. */
  function Entry(f: Field, answer: string): Option<string> {
    if Optional(f) && answer == "" then None else Some(Line(f, answer))
  }

  /** The array literal the wizard builds from the answers, before `filter(Boolean)`. */
  function AnswerEntries(a: Answers): seq<Option<string>> {
    [ Entry(NameAndRole, a.nameAndRole),
      Entry(CompanyName, a.companyName),
      Entry(Niche, a.niche),
      Entry(HelpDescription, a.helpDescription),
      Entry(Services, a.services),
      Entry(Experience, a.experience),
      Entry(Achievements, a.achievements),
      Entry(Recognition, a.recognition),
      Entry(Differential, a.differential),
      Entry(BestClients, a.bestClients),
      Entry(PreferredClients, a.preferredClients),
      Entry(AvoidClients, a.avoidClients),
      Entry(AdditionalInfo, a.additionalInfo) ]
  }

  /**
   * The biography document: the truthy entries joined by newlines. The entries are listed in
   * question order, which is the order of the array literal (EntriesFollowQuestionOrder).
   */
  function FormatBiography(a: Answers): string {
    Join(KeepTruthy(EntriesFor(a, Order)), '\n')
  }

  // ---------------------------------------------------------------------------------------------
  // Reference description of the document: one line per shown field, in question order.

  /** A field has a line in the document when it is required or its answer is non-empty. */
  predicate Shown(a: Answers, f: Field) {
    !Optional(f) || Get(a, f) != ""
  }

  function ShownLines(a: Answers, fs: seq<Field>): seq<string> {
    if fs == [] then []
    else (if Shown(a, fs[0]) then [Line(fs[0], Get(a, fs[0]))] else []) + ShownLines(a, fs[1..])
  }

  function EntriesFor(a: Answers, fs: seq<Field>): seq<Option<string>> {
    seq(|fs|, i requires 0 <= i < |fs| => Entry(fs[i], Get(a, fs[i])))
  }

  /** How many of the three optional answers are non-empty. */
  function AnsweredOptionals(a: Answers): (n: nat)
    ensures n <= 3
  {
    (if a.recognition != "" then 1 else 0) + (if a.avoidClients != "" then 1 else 0)
    + (if a.additionalInfo != "" then 1 else 0)
  }

  /** The document's array literal lists the fields in the order the questions are asked. */
  lemma EntriesFollowQuestionOrder(a: Answers)
    ensures AnswerEntries(a) == EntriesFor(a, Order)
  {
  }

  lemma {:induction false} KeepTruthyEntries(a: Answers, fs: seq<Field>)
    ensures KeepTruthy(EntriesFor(a, fs)) == ShownLines(a, fs)
  {
    if fs != [] {
      assert EntriesFor(a, fs) == [Entry(fs[0], Get(a, fs[0]))] + EntriesFor(a, fs[1..]);
      KeepTruthyConcat([Entry(fs[0], Get(a, fs[0]))], EntriesFor(a, fs[1..]));
      KeepTruthyEntries(a, fs[1..]);
    }
  }

  lemma {:induction false} ShownLinesConcat(a: Answers, xs: seq<Field>, ys: seq<Field>)
    ensures ShownLines(a, xs + ys) == ShownLines(a, xs) + ShownLines(a, ys)
  {
    if xs == [] {
      assert xs + ys == ys;
    } else {
      assert (xs + ys)[1..] == xs[1..] + ys;
      ShownLinesConcat(a, xs[1..], ys);
    }
  }

  lemma {:induction false} RequiredAllShown(a: Answers, fs: seq<Field>)
    requires forall i :: 0 <= i < |fs| ==> !Optional(fs[i])
    ensures |ShownLines(a, fs)| == |fs|
  {
    if fs != [] {
      RequiredAllShown(a, fs[1..]);
    }
  }

  /**
   * The document's lines are the ten required lines plus one per non-empty optional answer,
   * in question order; an empty optional answer contributes no line.
   */
  lemma {:induction false} FormattedLines(a: Answers)
    ensures KeepTruthy(AnswerEntries(a)) == ShownLines(a, Order)
    ensures FormatBiography(a) == Join(ShownLines(a, Order), '\n')
    ensures |ShownLines(a, Order)| == 10 + AnsweredOptionals(a)
  {
    EntriesFollowQuestionOrder(a);
    KeepTruthyEntries(a, Order);
    ShownCount(a);
  }

  lemma {:induction false} ShownCount(a: Answers)
    ensures |ShownLines(a, Order)| == 10 + AnsweredOptionals(a)
  {
    var head := [NameAndRole, CompanyName, Niche, HelpDescription, Services, Experience, Achievements];
    var tail := [Differential, BestClients, PreferredClients];
    var last := [AvoidClients, AdditionalInfo];
    assert Order == head + [Recognition] + tail + last;
    ShownLinesConcat(a, head + [Recognition] + tail, last);
    ShownLinesConcat(a, head + [Recognition], tail);
    ShownLinesConcat(a, head, [Recognition]);
    RequiredAllShown(a, head);
    RequiredAllShown(a, tail);
    OptionalShown(a, Recognition, []);
    OptionalShown(a, AdditionalInfo, []);
    OptionalShown(a, AvoidClients, [AdditionalInfo]);
  }

  lemma OptionalShown(a: Answers, f: Field, rest: seq<Field>)
    requires Optional(f)
    ensures |ShownLines(a, [f] + rest)| == (if Get(a, f) != "" then 1 else 0) + |ShownLines(a, rest)|
  {
    assert ([f] + rest)[1..] == rest;
  }

  /** The document is never empty: the first line is always present. */
  lemma {:induction false} BiographyNonEmpty(a: Answers)
    ensures FormatBiography(a) != ""
  {
    FormattedLines(a);
    var lines := ShownLines(a, Order);
    assert lines[0] == Line(NameAndRole, a.nameAndRole);
    assert Join(lines, '\n')[..|lines[0]|] == lines[0];
  }

  /** When no answer contains a newline, splitting the document on newlines gives its lines back. */
  lemma {:induction false} SplitRecoversLines(a: Answers)
    requires forall f: Field :: '\n' !in Get(a, f)
    ensures Split(FormatBiography(a), '\n') == ShownLines(a, Order)
  {
    FormattedLines(a);
    var lines := ShownLines(a, Order);
    ShownLinesMembers(a, Order);
    SplitJoin(lines, '\n');
  }

  lemma {:induction false} ShownLinesMembers(a: Answers, fs: seq<Field>)
    requires forall f: Field :: '\n' !in Get(a, f)
    ensures forall i :: 0 <= i < |ShownLines(a, fs)| ==> '\n' !in ShownLines(a, fs)[i]
  {
    if fs != [] {
      ShownLinesMembers(a, fs[1..]);
      LabelHasNoNewline(fs[0]);
      var first := if Shown(a, fs[0]) then [Line(fs[0], Get(a, fs[0]))] else [];
      assert ShownLines(a, fs) == first + ShownLines(a, fs[1..]);
      forall i | 0 <= i < |ShownLines(a, fs)| ensures '\n' !in ShownLines(a, fs)[i] {
        if i >= |first| {
          assert ShownLines(a, fs)[i] == ShownLines(a, fs[1..])[i - |first|];
        }
      }
    }
  }

  lemma LabelHasNoNewline(f: Field)
    ensures '\n' !in Label(f)
  {
    match f
    case NameAndRole =>
    case CompanyName =>
    case Niche =>
    case HelpDescription =>
    case Services =>
    case Experience =>
    case Achievements =>
    case Recognition =>
    case Differential =>
    case BestClients =>
    case PreferredClients =>
    case AvoidClients =>
    case AdditionalInfo =>
  }

  // ---------------------------------------------------------------------------------------------
  // The `biographies` table row (types/supabase.ts). The database-assigned `id` and `created_at`
  // columns are not read by the modelled code and are left out.

  datatype BiographyRow = BiographyRow(
    userId: string, nameAndRole: string, companyName: string, niche: string,
    helpDescription: string, services: string, experience: string, achievements: string,
    recognition: Option<string>, differential: string, bestClients: string,
    preferredClients: string, avoidClients: Option<string>, additionalInfo: Option<string>,
    updatedAt: string)

  /** `s || null`: an empty string is stored as null. */
  function NullIfEmpty(s: string): (r: Option<string>)
    ensures r == None <==> s == ""
    ensures r.Some? ==> r.value == s
  {
    if s == "" then None else Some(s)
  }

  /** The row the wizard upserts for the signed-in user; the timestamp comes from the clock. */
  function ToRow(a: Answers, userId: string, updatedAt: string): (row: BiographyRow)
    ensures row.userId == userId && row.updatedAt == updatedAt
    ensures row.recognition == None <==> a.recognition == ""
    ensures row.avoidClients == None <==> a.avoidClients == ""
    ensures row.additionalInfo == None <==> a.additionalInfo == ""
    ensures FromRow(row) == a
  {
    BiographyRow(
      userId, a.nameAndRole, a.companyName, a.niche, a.helpDescription, a.services,
      a.experience, a.achievements, NullIfEmpty(a.recognition), a.differential,
      a.bestClients, a.preferredClients, NullIfEmpty(a.avoidClients),
      NullIfEmpty(a.additionalInfo), updatedAt)
  }

  /** Reads a row back as answers, a null column standing for an empty answer. */
  function FromRow(row: BiographyRow): Answers {
    Answers(
      row.nameAndRole, row.companyName, row.niche, row.helpDescription, row.services,
      row.experience, row.achievements, OrEmpty(row.recognition), row.differential,
      row.bestClients, row.preferredClients, OrEmpty(row.avoidClients), OrEmpty(row.additionalInfo))
  }

  function OrEmpty(x: Option<string>): string {
    match x
    case Some(s) => s
    case None => ""
  }
}
