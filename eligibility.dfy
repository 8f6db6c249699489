/**
 * The electoral-status classifier (`determinarSituacaoEleitoral`) and the
 * tag, message and icon attached to each category.
 */
module Eligibility {
  import opened Wrappers

  /** Below 16 one cannot vote. */
  const MinVotingAge := 16
  /** From 18 one is of age, and voting becomes compulsory. */
  const AdultAge := 18
  /** Voting is compulsory up to and including 69. */
  const MandatoryUpperAge := 69
  /** From 70 voting is optional again. */
  const OptionalAgainAge := 70

  datatype Category = BelowVotingAge | OptionalVoting | MandatoryVoting

  /**
   * The classifier as written: a chain of three guarded branches with no
   * final else, so that an age matching none of them would yield `None`
   * (JavaScript's `undefined`). No age does.
   */
  function Classify(age: int): (r: Option<Category>)
    ensures r.Some?
  {
    if age < MinVotingAge then Some(BelowVotingAge)
    else if (age >= MinVotingAge && age < AdultAge) || age >= OptionalAgainAge then Some(OptionalVoting)
    else if age >= AdultAge && age <= MandatoryUpperAge then Some(MandatoryVoting)
    else None
  }

  /** The classification table: each age range, in both directions. */
  lemma ClassifyTable(age: int)
    ensures Classify(age) == Some(BelowVotingAge) <==> age < 16
    ensures Classify(age) == Some(OptionalVoting) <==> 16 <= age <= 17 || age >= 70
    ensures Classify(age) == Some(MandatoryVoting) <==> 18 <= age <= 69
  {
  }

  lemma ClassifyBoundaries()
    ensures Classify(15) == Some(BelowVotingAge)
    ensures Classify(16) == Some(OptionalVoting)
    ensures Classify(17) == Some(OptionalVoting)
    ensures Classify(18) == Some(MandatoryVoting)
    ensures Classify(69) == Some(MandatoryVoting)
    ensures Classify(70) == Some(OptionalVoting)
  {
  }

  /** The `tipo` string of each category. */
  function Tag(c: Category): string {
    match c
    case BelowVotingAge => "nao-pode-votar"
    case OptionalVoting => "voto-facultativo"
    case MandatoryVoting => "voto-obrigatorio"
  }

  /** The `mensagem` string of each category. */
  function Message(c: Category): string {
    match c
    case BelowVotingAge => "Você ainda não tem idade para Votar na Próxima Eleição"
    case OptionalVoting => "Seu Voto é Facultativo na Próxima Eleição"
    case MandatoryVoting => "Seu Voto é Obrigatório na Próxima Eleição"
  }

  /** Ballot box with its emoji variation selector, clipboard, hourglass. */
  const BallotIcon: string := "\U{1F5F3}\U{FE0F}"
  const ClipboardIcon: string := "\U{1F4CB}"
  const HourglassIcon: string := "\U{23F3}"

  /** The icon chosen from a category's tag by the two nested conditionals. */
  function IconForTag(tag: string): string {
    if tag == "voto-obrigatorio" then BallotIcon
    else if tag == "voto-facultativo" then ClipboardIcon
    else HourglassIcon
  }

  /** Tags tell the categories apart. */
  lemma TagInjective(c: Category, d: Category)
    ensures Tag(c) == Tag(d) <==> c == d
  {
    if c != d {
      assert Tag(c)[5] != Tag(d)[5] || Tag(c)[0] != Tag(d)[0];
    }
  }

  /** Each category gets its own icon, the hourglass for those below voting age. */
  lemma IconPerCategory(c: Category)
    ensures IconForTag(Tag(c)) == match c
      case MandatoryVoting => BallotIcon
      case OptionalVoting => ClipboardIcon
      case BelowVotingAge => HourglassIcon
  {
    TagInjective(c, MandatoryVoting);
    TagInjective(c, OptionalVoting);
  }
}
