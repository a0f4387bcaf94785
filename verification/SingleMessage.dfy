/** A queue with one message, for schedules that show what can go wrong. */
module SingleMessage {
  import opened ProcessQueue
  import opened QueueProtocol

  const ONLY: Message := Message(0, "", 0)
  const ONE_MESSAGE: Config := Config(iset{0}, 1000)
  const CACHED: View := View(map[0 := ONLY], map[], 0, 1, false)

  lemma OffsetsOfOne(m: Message)
    ensures Offsets([m]) == {m.queueOffset}
  {
    assert [m][..0] == [];
  }

  lemma PutOne(v: View, m: Message)
    ensures Put(v, [m]).cache == v.cache[m.queueOffset := m]
    ensures Put(v, [m]).offsetMax == if v.offsetMax < m.queueOffset then m.queueOffset else v.offsetMax
  {
    OffsetsOfOne(m);
    assert [m][..0] == [];
    assert PutAll(v.cache, []) == v.cache;
  }

  lemma PutOnly()
    ensures Put(EmptyView().(nextOffset := 1), [ONLY]) == CACHED
  {
    PutOne(EmptyView().(nextOffset := 1), ONLY);
  }
}
