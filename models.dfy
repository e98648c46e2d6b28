/** The vendor model codes of Bambu Lab printers and their display names (`BambuModel`). */
module Models {

  datatype BambuModel = A1Mini | A1 | P1P | P1S | X1Carbon | Unknown(code: string)

  /** The five codes the lookup table knows. */
  predicate IsKnownCode(code: string) {
    code in {"N1", "N2S", "C11", "C12", "BL-P001"}
  }

  /** `BambuModel::from_code`: total; an unknown code is carried verbatim. */
  function FromCode(code: string): (m: BambuModel)
    ensures m.Unknown? <==> !IsKnownCode(code)
    ensures m.Unknown? ==> m.code == code
  {
    if code == "N1" then A1Mini
    else if code == "N2S" then A1
    else if code == "C11" then P1P
    else if code == "C12" then P1S
    else if code == "BL-P001" then X1Carbon
    else Unknown(code)
  }

  /** The vendor code a model is announced with: the inverse of the lookup table. */
  function Code(m: BambuModel): string {
    match m
    case A1Mini => "N1"
    case A1 => "N2S"
    case P1P => "C11"
    case P1S => "C12"
    case X1Carbon => "BL-P001"
    case Unknown(c) => c
  }

  /** A model value `FromCode` can produce: `Unknown` never carries one of the known codes. */
  predicate IsResolvable(m: BambuModel) {
    m.Unknown? ==> !IsKnownCode(m.code)
  }

  /** Resolving a code and reading its code back gives the code: no code is lost. */
  lemma CodeOfFromCode(code: string)
    ensures Code(FromCode(code)) == code
    ensures IsResolvable(FromCode(code))
  {
  }

  /** Every resolvable model is the resolution of its own code. */
  lemma FromCodeOfCode(m: BambuModel)
    requires IsResolvable(m)
    ensures FromCode(Code(m)) == m
  {
  }

  /** `impl Display for BambuModel`. */
  function Display(m: BambuModel): (s: string)
    ensures m.Unknown? ==> s == m.code
    ensures !m.Unknown? ==> |s| > 10 && s[..10] == "Bambu Lab "
  {
    match m
    case A1Mini => "Bambu Lab A1 mini"
    case A1 => "Bambu Lab A1"
    case P1P => "Bambu Lab P1P"
    case P1S => "Bambu Lab P1S"
    case X1Carbon => "Bambu Lab X1 Carbon"
    case Unknown(code) => code
  }

  /** The name stored for a code: `from_code` followed by `to_string`. */
  function Resolve(code: string): string {
    Display(FromCode(code))
  }

  /**
   * The resolution table: the five known codes and their names; every other code displays as
   * itself, so an absent model token (resolved as `Unknown("Unknown")`) displays as "Unknown".
   */
  lemma ResolveTable(code: string)
    ensures Resolve("N1") == "Bambu Lab A1 mini"
    ensures Resolve("N2S") == "Bambu Lab A1"
    ensures Resolve("C11") == "Bambu Lab P1P"
    ensures Resolve("C12") == "Bambu Lab P1S"
    ensures Resolve("BL-P001") == "Bambu Lab X1 Carbon"
    ensures !IsKnownCode(code) ==> Resolve(code) == code
    ensures Display(Unknown("Unknown")) == "Unknown"
  {
  }

  /** Distinct known models have distinct display names. */
  lemma DisplayInjectiveOnKnown(m: BambuModel, n: BambuModel)
    requires !m.Unknown? && !n.Unknown? && m != n
    ensures Display(m) != Display(n)
  {
    var s, t := Display(m), Display(n);
    assert |s| != |t| || s[10] != t[10] || s[|s| - 1] != t[|t| - 1];
  }
}
