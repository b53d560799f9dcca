/**
 * The ELBv2 plugin: list every load balancer through the DescribeLoadBalancers
 * paginator, then find the one whose DNS name resolves to the target IP.
 */
module Elb {
  import opened Errors

  /** The fields of `types.LoadBalancer` the plugin uses. */
  datatype LoadBalancer = LoadBalancer(LoadBalancerArn: string, LoadBalancerName: string, DNSName: string)

  /** The Go zero value of `types.LoadBalancer`. */
  const ZeroLoadBalancer := LoadBalancer("", "", "")

  /** What one `paginator.NextPage` call returns: a page's `LoadBalancers`, or an error. */
  type Page = Result<seq<LoadBalancer>>

  /** The balancers of the pages, page after page (a failed page contributes none). */
  function Concat(pages: seq<Page>): seq<LoadBalancer>
  {
    if pages == [] then []
    else
      var last := pages[|pages| - 1];
      Concat(pages[..|pages| - 1]) + (if last.Ok? then last.value else [])
  }

  /** Every balancer of every successful page is in the concatenation. */
  lemma {:induction false} ConcatContains(pages: seq<Page>, j: nat, lb: LoadBalancer)
    requires j < |pages| && pages[j].Ok? && lb in pages[j].value
    ensures lb in Concat(pages)
  {
    if j < |pages| - 1 {
      ConcatContains(pages[..|pages| - 1], j, lb);
    }
  }

  /** Every balancer of the concatenation comes from some successful page. */
  lemma {:induction false} ConcatFrom(pages: seq<Page>, lb: LoadBalancer)
    requires lb in Concat(pages)
    ensures exists j :: 0 <= j < |pages| && pages[j].Ok? && lb in pages[j].value
  {
    var n := |pages| - 1;
    var last := pages[n];
    if lb in Concat(pages[..n]) {
      ConcatFrom(pages[..n], lb);
      var j :| 0 <= j < n && pages[..n][j].Ok? && lb in pages[..n][j].value;
      assert pages[j] == pages[..n][j];
    } else {
      assert last.Ok? && lb in last.value;
    }
  }

  /** The index of the first failed page (`|pages|` if none fails). */
  function FirstPageError(pages: seq<Page>): (k: nat)
    ensures k <= |pages|
    ensures forall j :: 0 <= j < k ==> pages[j].Ok?
    ensures k < |pages| ==> pages[k].Fail?
  {
    if pages == [] || pages[0].Fail? then 0 else 1 + FirstPageError(pages[1..])
  }

  /**
   * `GetResources`: follow the paginator until no pages remain, appending each
   * page's balancers; a failed page stops the listing and returns what was
   * gathered before it, with that page's error.
   */
  method GetResources(pages: seq<Page>) returns (elbs: seq<LoadBalancer>, err: Error)
    ensures var k := FirstPageError(pages);
            && elbs == Concat(pages[..k])
            && err == (if k < |pages| then Error(pages[k].msg) else Nil)
  {
    elbs := [];
    var i := 0;
    while i < |pages|
      invariant 0 <= i <= |pages|
      invariant forall j :: 0 <= j < i ==> pages[j].Ok?
      invariant elbs == Concat(pages[..i])
    {
      var output := pages[i];
      if output.Fail? {
        return elbs, Error(output.msg);
      }
      assert pages[..i + 1][..i] == pages[..i];
      elbs := elbs + output.value;
      i := i + 1;
    }
    assert pages[..i] == pages;
    err := Nil;
  }

  /** A balancer matches when some address its DNS name resolves to, as a string, is the target exactly. */
  predicate Resolves(lb: LoadBalancer, lookupFQDN: string -> seq<string>, tgtIP: string)
  {
    tgtIP in lookupFQDN(lb.DNSName)
  }

  /** The index of the last matching balancer, or -1 when none matches. */
  function LastMatch(elbs: seq<LoadBalancer>, lookupFQDN: string -> seq<string>, tgtIP: string): (k: int)
    ensures -1 <= k < |elbs|
    ensures k >= 0 ==> Resolves(elbs[k], lookupFQDN, tgtIP)
    ensures forall j :: k < j < |elbs| ==> !Resolves(elbs[j], lookupFQDN, tgtIP)
  {
    if elbs == [] then -1
    else if Resolves(elbs[|elbs| - 1], lookupFQDN, tgtIP) then |elbs| - 1
    else LastMatch(elbs[..|elbs| - 1], lookupFQDN, tgtIP)
  }

  /** The last matching balancer, or the zero balancer when none matches. */
  function LastMatched(elbs: seq<LoadBalancer>, lookupFQDN: string -> seq<string>, tgtIP: string): LoadBalancer
  {
    var k := LastMatch(elbs, lookupFQDN, tgtIP);
    if k >= 0 then elbs[k] else ZeroLoadBalancer
  }

  /** Scanning one more balancer replaces the result exactly when that balancer matches. */
  lemma LastMatchedSnoc(elbs: seq<LoadBalancer>, lb: LoadBalancer, lookupFQDN: string -> seq<string>, tgtIP: string)
    ensures LastMatched(elbs + [lb], lookupFQDN, tgtIP)
            == if Resolves(lb, lookupFQDN, tgtIP) then lb else LastMatched(elbs, lookupFQDN, tgtIP)
  {
    assert (elbs + [lb])[..|elbs|] == elbs;
  }

  /**
   * `SearchResources`: list the balancers, then scan all of them, keeping the
   * last one one of whose resolved addresses equals the target. A listing
   * error gives the zero balancer and that error; no match gives the zero
   * balancer and no error.
   */
  method SearchResources(pages: seq<Page>, lookupFQDN: string -> seq<string>, tgtIP: string)
    returns (matchedELB: LoadBalancer, err: Error)
    ensures var k := FirstPageError(pages);
            err == (if k < |pages| then Error(pages[k].msg) else Nil)
    ensures err.Error? ==> matchedELB == ZeroLoadBalancer
    ensures err.Nil? ==> matchedELB == LastMatched(Concat(pages), lookupFQDN, tgtIP)
  {
    matchedELB := ZeroLoadBalancer;
    var elbResources;
    elbResources, err := GetResources(pages);
    if err.Error? {
      return;
    }
    assert pages[..FirstPageError(pages)] == pages;
    var i := 0;
    while i < |elbResources|
      invariant 0 <= i <= |elbResources|
      invariant matchedELB == LastMatched(elbResources[..i], lookupFQDN, tgtIP)
    {
      var elb := elbResources[i];
      var elbIpAddrs := lookupFQDN(elb.DNSName);
      ghost var before := matchedELB;
      var j := 0;
      while j < |elbIpAddrs|
        invariant 0 <= j <= |elbIpAddrs|
        invariant matchedELB == if tgtIP in elbIpAddrs[..j] then elb else before
      {
        if elbIpAddrs[j] == tgtIP {
          matchedELB := elb;
        }
        assert elbIpAddrs[..j + 1] == elbIpAddrs[..j] + [elbIpAddrs[j]];
        j := j + 1;
      }
      assert elbIpAddrs[..j] == elbIpAddrs;
      assert elbResources[..i + 1] == elbResources[..i] + [elb];
      LastMatchedSnoc(elbResources[..i], elb, lookupFQDN, tgtIP);
      i := i + 1;
    }
    assert elbResources[..i] == elbResources;
  }
}
