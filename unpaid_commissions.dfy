// The unpaid-commissions widget data (utils/chartdata/getUnpaidCommissions.js): the first
// `limit` commissions that still owe money, with the amount owed.
module UnpaidCommissions {
  import opened Entities
  import opened ListPipeline

  /** `limit` when the caller passes none. */
  const DefaultLimit := 5

  datatype Unpaid = Unpaid(title: string, unpaidAmount: real, clientAvatar: string)

  predicate Owes(c: Commission) { c.totalValue > c.totalPaid }

  function Summarise(c: Commission): Unpaid
  {
    Unpaid(c.title, c.totalValue - c.totalPaid, c.client.avatarUrl)
  }

  /** `getUnpaidCommissions(commissions, limit)` */
  function GetUnpaidCommissions(commissions: seq<Commission>, limit: int): seq<Unpaid>
  {
    var first := JsSlice(Filter(commissions, Owes), 0, limit);
    seq(|first|, j requires 0 <= j < |first| => Summarise(first[j]))
  }

  /** For a non-negative limit: the first `limit` commissions that owe money, in input order,
      each with the positive amount still owed and its title and client avatar. */
  lemma UnpaidSpec(commissions: seq<Commission>, limit: int)
    requires limit >= 0
    ensures var owing := Filter(commissions, Owes);
            var r := GetUnpaidCommissions(commissions, limit);
            |r| == (if |owing| < limit then |owing| else limit) &&
            forall j :: 0 <= j < |r| ==>
              r[j].unpaidAmount == owing[j].totalValue - owing[j].totalPaid && r[j].unpaidAmount > 0.0 &&
              r[j].title == owing[j].title && r[j].clientAvatar == owing[j].client.avatarUrl
  {
    var owing := Filter(commissions, Owes);
    forall j | 0 <= j < |owing| ensures Owes(owing[j]) {
      FilterMember(commissions, Owes, owing[j]);
    }
  }

  /** Every listed amount comes from a commission of the input that owes money. */
  lemma UnpaidFromInput(commissions: seq<Commission>, limit: int, j: int)
    requires 0 <= j < |GetUnpaidCommissions(commissions, limit)|
    ensures exists c :: c in commissions && Owes(c) && GetUnpaidCommissions(commissions, limit)[j] == Summarise(c)
  {
    var owing := Filter(commissions, Owes);
    var first := JsSlice(owing, 0, limit);
    var c := first[j];
    PageFromListSlice(owing, limit, c);
    FilterMember(commissions, Owes, c);
  }

  /** A slice from the start holds rows of the list only. */
  lemma PageFromListSlice(owing: seq<Commission>, limit: int, c: Commission)
    requires c in JsSlice(owing, 0, limit)
    ensures c in owing
  {
  }

  /** With the default limit there are at most five entries. */
  lemma DefaultAtMostFive(commissions: seq<Commission>)
    ensures |GetUnpaidCommissions(commissions, DefaultLimit)| <= 5
  {
  }
}
