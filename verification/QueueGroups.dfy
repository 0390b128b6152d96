/** The message group of a job: tenant and a bucket of the phone number. */
module QueueGroups {
  import opened Boundary
  import opened Text

  const TWO32 := 0x1_0000_0000

  /** `hash` is the 32-bit FNV-1a of the phone number.  `None` is a division by zero: a bucket
      count that is a positive multiple of 2^32 becomes zero in 32 bits. */
  function MessageGroupId(tenant: string, hash: nat, buckets: int): Option<string>
    requires hash < TWO32
  {
    var n := (if buckets <= 0 then 2000 else buckets) % TWO32;
    if n == 0 then None else Some(tenant + ":b" + Decimal(hash % n))
  }

  function BucketCount(buckets: int): int {
    if buckets <= 0 then 2000 else buckets
  }

  /** The id exists for every count but the positive multiples of 2^32, and then names a bucket
      below the count. */
  lemma BucketInRange(tenant: string, hash: nat, buckets: int)
    requires hash < TWO32
    ensures MessageGroupId(tenant, hash, buckets).None? <==> buckets > 0 && buckets % TWO32 == 0
    ensures MessageGroupId(tenant, hash, buckets).Some? ==>
              exists b: nat :: b < BucketCount(buckets) && MessageGroupId(tenant, hash, buckets) == Some(tenant + ":b" + Decimal(b))
  {
    var n := BucketCount(buckets) % TWO32;
    if n != 0 {
      var b := hash % n;
      assert b < n <= BucketCount(buckets);
      assert MessageGroupId(tenant, hash, buckets) == Some(tenant + ":b" + Decimal(b));
    }
  }

  /** Up to 2^32 buckets, the bucket is the hash modulo their number, or modulo 2000 if that is not set. */
  lemma BucketIs(tenant: string, hash: nat, buckets: int)
    requires hash < TWO32
    ensures buckets <= 0 ==> MessageGroupId(tenant, hash, buckets) == Some(tenant + ":b" + Decimal(hash % 2000))
    ensures 0 < buckets < 0x1_0000_0000 ==> MessageGroupId(tenant, hash, buckets) == Some(tenant + ":b" + Decimal(hash % buckets))
  {
    if 0 < buckets < 0x1_0000_0000 { Fits(buckets); }
  }

  lemma Fits(n: nat)
    requires n < TWO32
    ensures n % TWO32 == n
  {
  }

  lemma LastChar(x: string, a: string)
    ensures var s := x + ":b" + a; s[|s| - 1] == if a == "" then 'b' else a[|a| - 1]
  {
  }

  /** The digits of the bucket are everything behind the last ":b", whatever the tenant is called. */
  lemma {:induction false} SuffixDecides(x: string, y: string, a: string, b: string)
    requires AllDigits(a) && AllDigits(b) && x + ":b" + a == y + ":b" + b
    ensures x == y && a == b
    decreases |a|
  {
    LastChar(x, a);
    LastChar(y, b);
    assert a == "" <==> b == "";
    var s := x + ":b" + a;
    if a == "" {
      assert x == s[..|s| - 2] == y;
    } else {
      assert x + ":b" + a[..|a| - 1] == s[..|s| - 1] == y + ":b" + b[..|b| - 1];
      SuffixDecides(x, y, a[..|a| - 1], b[..|b| - 1]);
      assert a == a[..|a| - 1] + [a[|a| - 1]] && b == b[..|b| - 1] + [b[|b| - 1]];
    }
  }

  /** The printed id determines tenant and bucket, so two tenants never share a group, even when
      their names contain ":b" and digits. */
  lemma GroupIdIsInjective(tenant: string, hash: nat, tenant': string, hash': nat, buckets: int)
    requires hash < TWO32 && hash' < TWO32
    requires MessageGroupId(tenant, hash, buckets).Some? && MessageGroupId(tenant, hash, buckets) == MessageGroupId(tenant', hash', buckets)
    ensures tenant == tenant' && hash % (BucketCount(buckets) % TWO32) == hash' % (BucketCount(buckets) % TWO32)
  {
    var n := BucketCount(buckets) % TWO32;
    SuffixDecides(tenant, tenant', Decimal(hash % n), Decimal(hash' % n));
    ValueOfDecimal(hash % n);
    ValueOfDecimal(hash' % n);
  }
}
