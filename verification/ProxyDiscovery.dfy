/** The consumer registry: a vector searched, grown and erased from in place. */
module ConsumerRegistry {
  import opened Options

  function Added<T(==)>(consumers: seq<T>, c: T): seq<T> {
    if c in consumers then consumers else consumers + [c]
  }

  /** Without its first occurrence of `c`. */
  function Removed<T(==)>(consumers: seq<T>, c: T): seq<T> {
    if consumers == [] then []
    else if consumers[0] == c then consumers[1..]
    else [consumers[0]] + Removed(consumers[1..], c)
  }

  ghost predicate Distinct<T>(s: seq<T>) {
    forall i, j | 0 <= i < j < |s| :: s[i] != s[j]
  }

  lemma AddedKeeps<T>(s: seq<T>, c: T)
    requires Distinct(s)
    ensures Distinct(Added(s, c)) && c in Added(s, c) && s <= Added(s, c)
    ensures forall x :: x in Added(s, c) <==> x in s || x == c
  {
  }

  /** Only the first occurrence goes, and what is behind it moves up. */
  lemma {:induction false} RemovedAt<T>(s: seq<T>, c: T, i: nat)
    requires i < |s| && s[i] == c && c !in s[..i]
    ensures Removed(s, c) == s[..i] + s[i + 1..]
  {
    if i > 0 {
      assert s[..i][0] == s[0];
      var rest := s[1..];
      assert rest[..i - 1] == s[..i][1..];
      RemovedAt(rest, c, i - 1);
      assert [s[0]] + rest[..i - 1] == s[..i];
      assert rest[i..] == s[i + 1..];
    }
  }

  lemma {:induction false} RemovedAbsent<T>(s: seq<T>, c: T)
    requires c !in s
    ensures Removed(s, c) == s
  {
    if s != [] {
      RemovedAbsent(s[1..], c);
    }
  }

  /** Unregistering takes out exactly the one consumer and leaves the others, and their order, alone. */
  lemma {:induction false} RemovedKeeps<T>(s: seq<T>, c: T)
    requires Distinct(s)
    ensures Distinct(Removed(s, c)) && c !in Removed(s, c)
    ensures forall x :: x in Removed(s, c) <==> x in s && x != c
  {
    if s != [] {
      RemovedKeeps(s[1..], c);
      assert s == [s[0]] + s[1..];
      var rest := Removed(s[1..], c);
      assert forall k | 0 <= k < |rest| :: rest[k] in rest;
    }
  }

  /** Registering a new consumer and unregistering it again changes nothing. */
  lemma {:induction false} RegisterUndone<T>(s: seq<T>, c: T)
    requires c !in s
    ensures Removed(Added(s, c), c) == s
  {
    if s != [] {
      RegisterUndone(s[1..], c);
      assert Added(s, c)[1..] == Added(s[1..], c);
    }
  }

  class ProxyDiscovery<T(==)> {
    var m_Consumers: seq<T>

    constructor ()
      ensures m_Consumers == []
    {
      m_Consumers := [];
    }

    /** A null or already registered consumer is refused and changes nothing. */
    method RegisterForProxyNotifications(newConsumer: Option<T>) returns (registered: bool)
      modifies this
      ensures registered <==> newConsumer.Some? && newConsumer.value !in old(m_Consumers)
      ensures m_Consumers == if newConsumer.Some? then Added(old(m_Consumers), newConsumer.value) else old(m_Consumers)
    {
      if newConsumer.None? {
        return false;
      }
      var i := 0;
      while i < |m_Consumers|
        invariant 0 <= i <= |m_Consumers| && m_Consumers == old(m_Consumers)
        invariant newConsumer.value !in m_Consumers[..i]
      {
        if m_Consumers[i] == newConsumer.value {
          return false;
        }
        i := i + 1;
      }
      assert m_Consumers[..i] == m_Consumers;
      m_Consumers := m_Consumers + [newConsumer.value];
      return true;
    }

    method UnregisterForProxyNotifications(consumer: Option<T>) returns (removed: bool)
      modifies this
      ensures removed <==> consumer.Some? && consumer.value in old(m_Consumers)
      ensures m_Consumers == if consumer.Some? then Removed(old(m_Consumers), consumer.value) else old(m_Consumers)
    {
      if consumer.None? {
        return false;
      }
      var it := 0;
      while it < |m_Consumers|
        invariant 0 <= it <= |m_Consumers| && m_Consumers == old(m_Consumers)
        invariant consumer.value !in m_Consumers[..it]
      {
        if m_Consumers[it] == consumer.value {
          RemovedAt(m_Consumers, consumer.value, it);
          m_Consumers := m_Consumers[..it] + m_Consumers[it + 1..];
          return true;
        }
        it := it + 1;
      }
      assert m_Consumers[..it] == m_Consumers;
      RemovedAbsent(m_Consumers, consumer.value);
      return false;
    }
  }
}
