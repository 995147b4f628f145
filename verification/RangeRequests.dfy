/** Byte-range headers (section 14.1.2 of RFC 9110) and input materialisation on top of them. */
module RangeRequests {
  import opened Wrappers
  import opened Core
  import opened Execution

  // ----- decimal numbers -----

  function Digit(d: nat): char
    requires d < 10
  {
    ('0' as int + d) as char
  }

  function Decimal(n: nat): (r: string)
    ensures |r| > 0
    ensures forall i :: 0 <= i < |r| ==> '0' <= r[i] <= '9'
  {
    if n < 10 then [Digit(n)] else Decimal(n / 10) + [Digit(n % 10)]
  }

  function ParseDigits(s: string): Option<nat>
  {
    if s == [] then Some(0)
    else
      var c := s[|s| - 1];
      match ParseDigits(s[..|s| - 1])
      case None => None
      case Some(high) => if '0' <= c <= '9' then Some(10 * high + (c as int - '0' as int)) else None
  }

  /** An optional plus sign and at least one digit, not exceeding 64 bits. */
  function ParseUsize(s: string): Option<nat>
  {
    var digits := if s != [] && s[0] == '+' then s[1..] else s;
    if digits == [] then None
    else
      match ParseDigits(digits)
      case None => None
      case Some(n) => if n <= U64_MAX then Some(n) else None
  }

  lemma {:induction false} DecimalRoundTrip(n: nat)
    ensures ParseDigits(Decimal(n)) == Some(n)
  {
    if n < 10 {
      assert [Digit(n)][..0] == [];
    } else {
      DecimalRoundTrip(n / 10);
      var s := Decimal(n / 10) + [Digit(n % 10)];
      assert s[..|s| - 1] == Decimal(n / 10);
    }
  }

  lemma ParsePrinted(n: u64)
    ensures ParseUsize(Decimal(n)) == Some(n)
  {
    DecimalRoundTrip(n);
    assert Decimal(n)[0] != '+';
  }

  // ----- the header -----

  datatype RangeError = BadRequest | NotSatisfiable

  /** The part before the first `separator` and the part after it. */
  function SplitOnce(s: string, separator: char): (r: Option<(string, string)>)
    ensures r.Some? ==> s == r.value.0 + [separator] + r.value.1 && separator !in r.value.0
    ensures r.None? <==> separator !in s
  {
    if s == [] then None
    else if s[0] == separator then Some(("", s[1..]))
    else
      match SplitOnce(s[1..], separator)
      case None => None
      case Some((before, after)) => Some(([s[0]] + before, after))
  }

  function ParseByteRange(header: Option<string>, total: nat): (r: Result<Option<(nat, nat)>, RangeError>)
    ensures r.Success? && r.value.Some? ==> r.value.value.0 < r.value.value.1 <= total
  {
    match header
    case None => Success(None)
    case Some(value) =>
      if !("bytes=" <= value) then Failure(BadRequest)
      else
        var spec := value[6..];
        if ',' in spec then Failure(BadRequest)
        else
          match SplitOnce(spec, '-')
          case None => Failure(BadRequest)
          case Some((first, last)) =>
            match (ParseUsize(first), ParseUsize(last))
            case (Some(start), Some(end)) =>
              if start > end || end >= total then Failure(NotSatisfiable) else Success(Some((start, end + 1)))
            case _ => Failure(BadRequest)
  }

  function PrintByteRange(offset: u64, lastByte: u64): string
  {
    "bytes=" + Decimal(offset) + "-" + Decimal(lastByte)
  }

  lemma {:induction false} SplitAtDash(before: string, after: string)
    requires '-' !in before
    ensures SplitOnce(before + "-" + after, '-') == Some((before, after))
  {
    if before == "" {
      assert (before + "-" + after)[1..] == after;
    } else {
      SplitAtDash(before[1..], after);
      assert (before + "-" + after)[1..] == before[1..] + "-" + after;
      assert (before + "-" + after)[0] == before[0];
      assert [before[0]] + before[1..] == before;
    }
  }

  /** What one agent asks for is exactly what the other understands, for every in-range request. */
  lemma HeaderRoundTrip(offset: u64, length: u64, total: u64)
    requires length > 0 && offset + length <= total
    ensures ParseByteRange(Some(PrintByteRange(offset, offset + length - 1)), total)
            == Success(Some((offset, offset + length)))
  {
    hide Decimal, SplitOnce, ParseUsize;
    var first, last := Decimal(offset), Decimal(offset + length - 1);
    var value := PrintByteRange(offset, offset + length - 1);
    assert value == "bytes=" + (first + "-" + last);
    assert value[6..] == first + "-" + last;
    SplitAtDash(first, last);
    ParsePrinted(offset);
    ParsePrinted(offset + length - 1);
  }

  // ----- serving and fetching -----

  /** What an agent holding `bytes` answers: the whole object or one partial-content slice. */
  function GetBlob(bytes: Bytes, header: Option<string>): Result<(bool, Bytes), RangeError>
  {
    match ParseByteRange(header, |bytes|)
    case Failure(e) => Failure(e)
    case Success(None) => Success((false, bytes))
    case Success(Some((start, end))) => Success((true, bytes[start..end]))
  }

  /**
   * A replica's answer: passed over (unreachable, another status, a failed length or digest check), lost
   * while its body is read, or the object it stores under the content digest.
   */
  datatype Replica = PassedOver | Lost | Serves

  /** The local store's copy: not there, there but unreadable, or there. */
  datatype LocalCopy = Absent | Unreadable | Readable

  /** Replica `k` is the first that is not passed over, and it serves the object. */
  predicate ServedBy(replicas: seq<Replica>, k: nat)
  {
    k < |replicas| && replicas[k].Serves? && forall i :: 0 <= i < k ==> replicas[i].PassedOver?
  }

  predicate SomeReplicaServes(replicas: seq<Replica>)
  {
    exists k :: 0 <= k < |replicas| && ServedBy(replicas, k)
  }

  /**
   * The whole object, from the local store or from the first replica not passed over. A fetched object
   * is stored and registered as a further replica, and the fetch fails if either does.
   */
  method FetchWhole(payload: Bytes, local: LocalCopy, replicas: seq<Replica>, stores: bool, registers: bool)
    returns (result: Result<Bytes, string>)
    ensures result.Success? ==> result.value == payload
    ensures result.Success? <==> local.Readable? || (local.Absent? && SomeReplicaServes(replicas) && stores && registers)
  {
    if local.Readable? {
      return Success(payload);
    }
    if local.Unreadable? {
      return Failure("the local copy cannot be read");
    }
    for k := 0 to |replicas|
      invariant forall i :: 0 <= i < k ==> replicas[i].PassedOver?
    {
      match replicas[k] {
        case PassedOver =>
        case Lost => return Failure("the reply was lost");
        case Serves =>
          assert ServedBy(replicas, k);
          var response := GetBlob(payload, None);
          if !stores {
            return Failure("the object cannot be stored");
          }
          if !registers {
            return Failure("the new replica cannot be registered");
          }
          return Success(response.value.1);
      }
    }
    return Failure("no replica supplied the object");
  }

  /** One byte range, with the checks both ends make on it; it is neither stored nor registered. */
  method FetchRange(payload: Bytes, local: LocalCopy, replicas: seq<Replica>, offset: u64, length: u64)
    returns (result: Result<Bytes, string>)
    requires |payload| <= U64_MAX
    ensures result.Success? ==> offset + length <= |payload| && result.value == payload[offset..offset + length]
    ensures result.Success? <==>
              && offset + length <= |payload|
              && (length == 0 || local.Readable? || (local.Absent? && SomeReplicaServes(replicas)))
  {
    hide ParseByteRange, PrintByteRange;
    if offset + length > U64_MAX {
      return Failure("input byte range overflows");
    }
    var end := offset + length;
    if end > |payload| {
      return Failure("input byte range exceeds object size");
    }
    if length == 0 {
      return Success([]);
    }
    if local.Readable? {
      return Success(payload[offset..end]);
    }
    if local.Unreadable? {
      return Failure("the local copy cannot be read");
    }
    HeaderRoundTrip(offset, length, |payload|);
    for k := 0 to |replicas|
      invariant forall i :: 0 <= i < k ==> replicas[i].PassedOver?
    {
      match replicas[k] {
        case PassedOver =>
        case Lost => return Failure("the reply was lost");
        case Serves =>
          assert ServedBy(replicas, k);
          var response := GetBlob(payload, Some(PrintByteRange(offset, end - 1)));
          if response.Success? && response.value.0 && |response.value.1| == length {
            return Success(response.value.1);
          }
      }
    }
    return Failure("no replica supplied the byte range");
  }

  /** The request covers the whole object. */
  predicate AsksForAll(payload: Bytes, range: Option<(u64, u64)>)
  {
    range.None? || range == Some((0, |payload|))
  }

  /**
   * Materialises one input: the whole object, or the slice a shard asked for. Where it came from makes
   * no difference to the result, only to whether there is one.
   */
  method MaterializeInput(payload: Bytes, local: LocalCopy, replicas: seq<Replica>, stores: bool, registers: bool,
                          range: Option<(u64, u64)>)
    returns (result: Result<Bytes, string>)
    requires |payload| <= U64_MAX
    ensures result.Success? ==> result == Slice(payload, range)
    ensures result.Success? <==>
              if AsksForAll(payload, range)
              then local.Readable? || (local.Absent? && SomeReplicaServes(replicas) && stores && registers)
              else Slice(payload, range).Success?
                   && (range.value.1 == 0 || local.Readable? || (local.Absent? && SomeReplicaServes(replicas)))
  {
    assert payload[0..|payload|] == payload;
    if AsksForAll(payload, range) {
      result := FetchWhole(payload, local, replicas, stores, registers);
    } else {
      result := FetchRange(payload, local, replicas, range.value.0, range.value.1);
    }
  }
}
