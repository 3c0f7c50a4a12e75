/**
 TAP subnets of sandbox/fire.py: which /30 of 172.16.0.0/16 (private address
 space, section 3 of RFC 1918) a session index gets, and that live allocations
 stay disjoint however long the counter runs.
 */
module TapSubnets {
  import opened Prelude

  const MAX_TAP_SUBNETS := 16384

  datatype Ip = Ip(first: nat, second: nat, third: nat, fourth: nat)

  /** `_ip_from_host_offset`; `None` is its error. */
  function IpFromHostOffset(offset: int): Option<Ip> {
    if offset < 0 || offset > 65535 then None else Some(Ip(172, 16, offset / 256, offset % 256))
  }

  datatype Pair = Pair(tap: Ip, guest: Ip)

  /** `_tap_guest_ips_from_index`; `None` is either of its errors. */
  function TapGuestIps(index: int): Option<Pair> {
    if index < 0 then None
    else
      var tapOffset := 4 * (index % MAX_TAP_SUBNETS) + 1;
      match (IpFromHostOffset(tapOffset), IpFromHostOffset(tapOffset + 1))
      case (Some(tap), Some(guest)) => Some(Pair(tap, guest))
      case _ => None
  }

  // ---------------------------------------------------------------- address arithmetic

  predicate InNetwork(ip: Ip) {
    ip.first == 172 && ip.second == 16 && ip.third < 256 && ip.fourth < 256
  }

  /** The host part of an address of the network: its last 16 bits. */
  function HostPart(ip: Ip): nat {
    256 * ip.third + ip.fourth
  }

  /** The /30 an address lies in, and its place there: 0 is the network's, 3 the broadcast address. */
  function Block(ip: Ip): nat {
    HostPart(ip) / 4
  }

  function Place(ip: Ip): nat {
    HostPart(ip) % 4
  }

  lemma OffsetIsHostPart(offset: int)
    requires 0 <= offset <= 65535
    ensures var ip := IpFromHostOffset(offset); ip.Some? && InNetwork(ip.value) && HostPart(ip.value) == offset
  {
    assert offset == 256 * (offset / 256) + offset % 256;
  }

  /** Every index gets the two host addresses of one /30 inside the network: the range check never fails. */
  lemma IndexGetsOneBlock(index: nat)
    ensures var pair := TapGuestIps(index);
            && pair.Some?
            && InNetwork(pair.value.tap) && InNetwork(pair.value.guest)
            && Block(pair.value.tap) == Block(pair.value.guest) == index % MAX_TAP_SUBNETS
            && Place(pair.value.tap) == 1 && Place(pair.value.guest) == 2
  {
    var e := index % MAX_TAP_SUBNETS;
    OffsetIsHostPart(4 * e + 1);
    OffsetIsHostPart(4 * e + 2);
    BlockAndPlace(e, 1);
    BlockAndPlace(e, 2);
  }

  lemma BlockAndPlace(e: nat, p: nat)
    requires p < 4
    ensures (4 * e + p) / 4 == e && (4 * e + p) % 4 == p
  {
  }

  function IpsOf(index: nat): Pair {
    IndexGetsOneBlock(index);
    TapGuestIps(index).value
  }

  function Both(pair: Pair): set<Ip> {
    {pair.tap, pair.guest}
  }

  /** Indices share their addresses when they are equal modulo the number of blocks, and share none otherwise. */
  lemma SharedIffCongruent(i: nat, j: nat)
    ensures IpsOf(i) == IpsOf(j) <==> i % MAX_TAP_SUBNETS == j % MAX_TAP_SUBNETS
    ensures Both(IpsOf(i)) !! Both(IpsOf(j)) <==> i % MAX_TAP_SUBNETS != j % MAX_TAP_SUBNETS
  {
    IndexGetsOneBlock(i);
    IndexGetsOneBlock(j);
    assert IpsOf(i).tap in Both(IpsOf(i)) && IpsOf(j).tap in Both(IpsOf(j));
    if i % MAX_TAP_SUBNETS != j % MAX_TAP_SUBNETS {
      forall ip | ip in Both(IpsOf(i)) ensures ip !in Both(IpsOf(j)) {
        assert Block(ip) == i % MAX_TAP_SUBNETS;
      }
    }
  }

  // ---------------------------------------------------------------- the allocator

  datatype CounterFile = Empty | Number(value: int) | Garbage

  datatype Creation = Created(index: nat) | BadRetries | NoInterface | BadCounter | Collisions | CommandFailed

  /** Which of the commands that set up the device work. */
  datatype Commands = Commands(add: bool, address: bool, up: bool)

  /** Trying `index` meets an address in use. */
  predicate Collides(index: nat, used: set<Ip>) {
    IpsOf(index).tap in used || IpsOf(index).guest in used
  }

  /** Attempt `k` from a counter at `start` finds both its addresses free. */
  predicate FreeAt(start: nat, k: nat, used: set<Ip>) {
    !Collides(start + k, used)
  }

  predicate FirstFree(start: nat, k: nat, used: set<Ip>) {
    FreeAt(start, k, used) && forall i: nat | i < k :: !FreeAt(start, i, used)
  }

  /**
   The allocator and what it allocates: `taps` maps the live devices to the
   index each was made for.  Addresses of live devices show up in the listing;
   `others` are the remaining addresses of the host.
   */
  class TapDeviceManager {
    var counter: CounterFile
    var taps: map<string, nat>
    var others: set<Ip>

    constructor (file: CounterFile, inUse: set<Ip>)
      ensures Valid() && counter == file && taps == map[] && others == inUse
    {
      counter, taps, others := file, map[], inUse;
    }

    ghost predicate Valid()
      reads this
    {
      forall a, b | a in taps && b in taps && a != b :: Both(IpsOf(taps[a])) !! Both(IpsOf(taps[b]))
    }

    /** `_list_assigned_ipv4_addrs`: the host end of every live device, and everything else on the host. */
    function Assigned(): set<Ip>
      reads this
    {
      others + set name | name in taps :: IpsOf(taps[name]).tap
    }

    function Counter(): Option<nat>
      reads this
    {
      match counter
      case Empty => Some(0)
      case Number(n) => if n < 0 then None else Some(n)
      case Garbage => None
    }

    method NextSessionIndex() returns (index: Option<nat>)
      modifies this`counter
      ensures index == old(Counter())
      ensures counter == if index.Some? then Number(index.value + 1) else old(counter)
    {
      var current := 0;
      match counter {
        case Empty =>
        case Number(n) => current := n;
        case Garbage => return None;
      }
      if current < 0 {
        return None;
      }
      counter := Number(current + 1);
      index := Some(current);
    }

    /**
     The first index from the counter on whose two addresses are free, within
     `maxRetries`; the live allocations stay disjoint.
     */
    method Create(name: string, maxRetries: int, hasInterface: bool, commands: Commands) returns (creation: Creation)
      requires Valid()
      modifies this`counter, this`taps
      ensures Valid()
      ensures maxRetries <= 0 ==> creation == BadRetries && counter == old(counter)
      ensures maxRetries > 0 && !hasInterface ==> creation == NoInterface && counter == old(counter)
      ensures maxRetries > 0 && hasInterface && old(Counter()) == None ==> creation == BadCounter && counter == old(counter)
      ensures maxRetries > 0 && hasInterface && old(Counter()).Some? ==>
                var start := old(Counter()).value;
                if forall k: nat | k < maxRetries :: !FreeAt(start, k, old(Assigned())) then
                  creation == Collisions && counter == Number(start + maxRetries)
                else
                  exists k: nat ::
                    && k < maxRetries && FirstFree(start, k, old(Assigned())) && counter == Number(start + k + 1)
                    && creation == if commands == Commands(true, true, true) && name !in old(taps) then Created(start + k)
                                   else CommandFailed
      ensures taps == match creation
                      case Created(index) => old(taps)[name := index]
                      case _ => old(taps)
    {
      if maxRetries <= 0 {
        return BadRetries;
      }
      if !hasInterface {
        return NoInterface;
      }
      var attempt := 0;
      while attempt < maxRetries
        invariant 0 <= attempt <= maxRetries && Valid() && taps == old(taps)
        invariant attempt == 0 ==> counter == old(counter)
        invariant attempt > 0 ==> old(Counter()).Some? && counter == Number(old(Counter()).value + attempt)
        invariant old(Counter()).Some? ==> 
                    forall i: nat | i < attempt :: !FreeAt(old(Counter()).value, i, old(Assigned()))
      {
        var next := NextSessionIndex();
        if next == None {
          return BadCounter;
        }
        var index := next.value;
        IndexGetsOneBlock(index);
        var pair := TapGuestIps(index).value;
        var used := Assigned();
        assert FreeAt(old(Counter()).value, attempt, used) <==> !Collides(index, used);
        if pair.tap in used || pair.guest in used {
          attempt := attempt + 1;
          continue;
        }
        assert FirstFree(old(Counter()).value, attempt, old(Assigned()));
        // `ip tuntap add` also fails for a name that is taken; what fails later is undone
        if !commands.add || name in taps {
          return CommandFailed;
        }
        if !commands.address || !commands.up {
          return CommandFailed;
        }
        FreeIsDisjoint(taps, others, index);
        taps := taps[name := index];
        return Created(index);
      }
      creation := Collisions;
    }

    method Destroy(name: string)
      requires Valid()
      modifies this`taps
      ensures Valid() && taps == old(taps) - {name}
    {
      taps := taps - {name};
    }
  }

  /** A block whose host address is not listed is no live device's block. */
  lemma FreeIsDisjoint(taps: map<string, nat>, others: set<Ip>, index: nat)
    requires !Collides(index, others + set name | name in taps :: IpsOf(taps[name]).tap)
    ensures forall name | name in taps :: Both(IpsOf(taps[name])) !! Both(IpsOf(index))
  {
    forall name | name in taps ensures Both(IpsOf(taps[name])) !! Both(IpsOf(index)) {
      SharedIffCongruent(taps[name], index);
      assert IpsOf(taps[name]).tap in set name | name in taps :: IpsOf(taps[name]).tap;
    }
  }

  // ---------------------------------------------------------------- when there is room

  function Blocks(ips: set<Ip>): set<nat> {
    set ip | ip in ips :: Block(ip)
  }

  function BlockAt(start: nat, k: nat): nat {
    (start + k) % MAX_TAP_SUBNETS
  }

  function Tried(start: nat, n: nat): (blocks: set<nat>)
    ensures forall b | b in blocks :: exists k: nat :: k < n && b == BlockAt(start, k)
  {
    if n == 0 then {} else Tried(start, n - 1) + {BlockAt(start, n - 1)}
  }

  lemma DistinctBlocks(start: nat, k: nat, n: nat)
    requires k < n < MAX_TAP_SUBNETS
    ensures BlockAt(start, k) != BlockAt(start, n)
  {
    assert start + n == MAX_TAP_SUBNETS * ((start + n) / MAX_TAP_SUBNETS) + BlockAt(start, n);
    assert start + k == MAX_TAP_SUBNETS * ((start + k) / MAX_TAP_SUBNETS) + BlockAt(start, k);
  }

  /** Successive indices try as many different blocks, as long as there are as many. */
  lemma {:induction false} TriedAreDistinct(start: nat, n: nat)
    requires n <= MAX_TAP_SUBNETS
    ensures |Tried(start, n)| == n
  {
    if n > 0 {
      TriedAreDistinct(start, n - 1);
      forall k: nat | k < n - 1 ensures BlockAt(start, k) != BlockAt(start, n - 1) {
        DistinctBlocks(start, k, n - 1);
      }
      assert BlockAt(start, n - 1) !in Tried(start, n - 1);
    }
  }

  lemma CollisionsFillBlocks(start: nat, n: nat, used: set<Ip>)
    requires forall k: nat | k < n :: !FreeAt(start, k, used)
    ensures Tried(start, n) <= Blocks(used)
  {
    forall b | b in Tried(start, n) ensures b in Blocks(used) {
      var k: nat :| k < n && b == BlockAt(start, k);
      IndexGetsOneBlock(start + k);
      assert !FreeAt(start, k, used);
      var pair := IpsOf(start + k);
      assert pair.tap in used ==> Block(pair.tap) in Blocks(used);
      assert pair.guest in used ==> Block(pair.guest) in Blocks(used);
    }
  }

  /** With fewer blocks in use than there are attempts, some attempt meets no collision. */
  lemma RoomMeansNoCollisions(start: nat, maxRetries: nat, used: set<Ip>)
    requires maxRetries <= MAX_TAP_SUBNETS
    requires |Blocks(used)| < maxRetries
    ensures exists k: nat :: k < maxRetries && FreeAt(start, k, used)
  {
    TriedAreDistinct(start, maxRetries);
    if forall k: nat | k < maxRetries :: !FreeAt(start, k, used) {
      CollisionsFillBlocks(start, maxRetries, used);
      SubsetSize(Tried(start, maxRetries), Blocks(used));
    }
  }
}
