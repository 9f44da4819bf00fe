/** The deliverability router: `Sendout::getProperDomain(false, $errorMessage)`. */
module Router {
  import opened Wrappers
  import Store

  /** The message left in `$errorMessage` when every verified domain is over its IP limits. */
  const NoProperIpMessage: string := "Для рассылки не найден домен с IP без превышения лимита."

  /** The campaign's verified domains, in the order the domain table returns them. */
  function VerifiedLinked(table: seq<Store.Domain>, linked: set<nat>): (ids: seq<nat>)
    ensures forall i :: 0 <= i < |ids| ==> ids[i] in linked
    ensures forall i :: 0 <= i < |ids| ==> Store.Domain(ids[i], true) in table
    ensures forall d :: d in table && d.verified && d.id in linked ==> d.id in ids
  {
    if table == [] then []
    else (if table[0].verified && table[0].id in linked then [table[0].id] else []) + VerifiedLinked(table[1..], linked)
  }

  /**
   * The first verified domain of the campaign that has an IP under its limit
   * (`properIp` holds the domains for which `Domain::getProperIp` finds one).
   * With no verified domain at all the answer is null and `errorMessage` is
   * left as it was (the hard failure); with verified domains all over their
   * limits it is null with the message set (the soft failure).
   */
  method GetProperDomain(table: seq<Store.Domain>, linked: set<nat>, properIp: set<nat>, errorMessage: Option<string>)
    returns (domain: Option<nat>, message: Option<string>)
    ensures var vl := VerifiedLinked(table, linked);
      vl == [] ==> domain == None && message == errorMessage
    ensures var vl := VerifiedLinked(table, linked);
      domain.Some? ==>
        (message == errorMessage &&
         exists k :: 0 <= k < |vl| && vl[k] == domain.value && domain.value in properIp &&
           forall j :: 0 <= j < k ==> vl[j] !in properIp)
    ensures var vl := VerifiedLinked(table, linked);
      domain.None? && vl != [] ==>
        (message == Some(NoProperIpMessage) && forall i :: 0 <= i < |vl| ==> vl[i] !in properIp)
  {
    var domains := VerifiedLinked(table, linked);
    if domains == [] {
      return None, errorMessage;
    }
    var i := 0;
    while i < |domains|
      invariant 0 <= i <= |domains|
      invariant forall j :: 0 <= j < i ==> domains[j] !in properIp
    {
      if domains[i] in properIp {
        return Some(domains[i]), errorMessage;
      }
      i := i + 1;
    }
    return None, Some(NoProperIpMessage);
  }
}
