/**
 * The older status algebra of `include/contracts_lite/contract_types.hpp`:
 * `&&` and `||` always concatenate the comments around the conjunction, even
 * when a comment is empty. The header shares its include guard with
 * `operators.hpp`, so in any translation unit only one of the two algebras is
 * in force.
 */
module ContractTypes {
  import opened Status
  import Operators

  /** `rs1 && rs2` */
  function And(rs1: ReturnStatus, rs2: ReturnStatus): (r: ReturnStatus)
    ensures r.status <==> rs1.status && rs2.status
    ensures r.comment == rs1.comment + Operators.AndConjunction + rs2.comment
    ensures |r.comment| == |rs1.comment| + |Operators.AndConjunction| + |rs2.comment|
  {
    ReturnStatus(rs1.comment + Operators.AndConjunction + rs2.comment, rs1.status && rs2.status)
  }

  /** `rs1 || rs2` */
  function Or(rs1: ReturnStatus, rs2: ReturnStatus): (r: ReturnStatus)
    ensures r.status <==> rs1.status || rs2.status
    ensures r.comment == rs1.comment + Operators.OrConjunction + rs2.comment
    ensures |r.comment| == |rs1.comment| + |Operators.OrConjunction| + |rs2.comment|
  {
    ReturnStatus(rs1.comment + Operators.OrConjunction + rs2.comment, rs1.status || rs2.status)
  }

  /**
   * The two algebras always agree on the outcome, and agree on the comment
   * exactly when both comments are non-empty.
   */
  lemma AgreesWithOperators(a: ReturnStatus, b: ReturnStatus)
    ensures And(a, b).status == Operators.And(a, b).status
    ensures Or(a, b).status == Operators.Or(a, b).status
    ensures And(a, b) == Operators.And(a, b) <==> a.comment != [] && b.comment != []
    ensures Or(a, b) == Operators.Or(a, b) <==> a.comment != [] && b.comment != []
  {
    if a.comment == [] || b.comment == [] {
      assert |And(a, b).comment| != |Operators.And(a, b).comment|;
      assert |Or(a, b).comment| != |Operators.Or(a, b).comment|;
    }
  }

  /** Here no status is a unit: combining always lengthens the comment. */
  lemma NoIdentity(e: ReturnStatus, a: ReturnStatus)
    ensures And(e, a) != a && And(a, e) != a
    ensures Or(e, a) != a && Or(a, e) != a
  {
    assert |And(e, a).comment| > |a.comment|;
    assert |And(a, e).comment| > |a.comment|;
    assert |Or(e, a).comment| > |a.comment|;
    assert |Or(a, e).comment| > |a.comment|;
  }

  /** The concatenating `&&` and `||` are still associative. */
  lemma Associative(a: ReturnStatus, b: ReturnStatus, c: ReturnStatus)
    ensures And(And(a, b), c) == And(a, And(b, c))
    ensures Or(Or(a, b), c) == Or(a, Or(b, c))
  {
  }
}
