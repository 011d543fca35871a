/**
  The Faker providers the generators call: ipv4_public, user_name, first_name
  and last_name. Faker is a separate library with its own random state, so its
  answers are an oracle here: the n-th call of a provider since the last seed
  returns the n-th entry of the current stream. The model takes two facts about
  the answers on trust: names are non-empty, and ipv4_public never returns an
  address in a block of section 3 of RFC 1918.
*/
module Fake {
  import opened Net
  import Random

  type Word = s: string | |s| >= 1 witness "a"

  type PublicIpv4 = ip: Ipv4 | !InRfc1918(ip) witness Ipv4(8, 8, 8, 8)

  datatype Provider = UserName | FirstName | LastName

  /** What successive provider calls return. */
  datatype Stream = Stream(words: (Provider, nat) -> Word, ips: nat -> PublicIpv4)

  class Faker {
    var stream: Stream
    var cursor: nat
    const seeding: nat -> Stream

    constructor (initial: Stream, seeding: nat -> Stream)
      ensures stream == initial && cursor == 0 && this.seeding == seeding
    {
      stream := initial;
      cursor := 0;
      this.seeding := seeding;
    }

    /** Faker.seed(s): like random.seed, an int seeds by its absolute value. */
    method Seed(s: int)
      modifies this
      ensures stream == seeding(Random.Abs(s)) && cursor == 0
    {
      stream := seeding(Random.Abs(s));
      cursor := 0;
    }

    /** faker.user_name(), faker.first_name() or faker.last_name(). */
    method Name(p: Provider) returns (w: Word)
      modifies this
      ensures w == old(stream).words(p, old(cursor))
      ensures stream == old(stream) && cursor == old(cursor) + 1
    {
      w := stream.words(p, cursor);
      cursor := cursor + 1;
    }

    /** faker.ipv4_public() */
    method Ipv4Public() returns (ip: PublicIpv4)
      modifies this
      ensures ip == old(stream).ips(old(cursor))
      ensures stream == old(stream) && cursor == old(cursor) + 1
    {
      ip := stream.ips(cursor);
      cursor := cursor + 1;
    }
  }
}
