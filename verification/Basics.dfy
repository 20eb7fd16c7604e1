/** Identifiers shared by every module of the model. */
module Basics {

  datatype Option<+T> = None | Some(value: T)

  /** A Telegram user id in the decimal text form in which Redis stores it. */
  type UserId = string

  type RoomId = int

  /** Gender of a user, and of the 1:1 waiting bucket the user sits in. */
  datatype Gender = Male | Female {
    function Other(): Gender {
      if this == Male then Female else Male
    }
  }

  /** Gender filter of a chat room and of a room seeker. */
  datatype Pref = MalePref | FemalePref | AnyPref

  function Get<K, V>(m: map<K, V>, k: K): Option<V> {
    if k in m then Some(m[k]) else None
  }

  lemma RemoveKeySize<K, V>(m: map<K, V>, k: K)
    requires k in m
    ensures |m - {k}| == |m| - 1
  {
    assert (m - {k}).Keys == m.Keys - {k};
    assert |m.Keys| == |m| && |(m - {k}).Keys| == |m - {k}|;
  }
}
