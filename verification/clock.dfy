/** Points in time. Every datetime the aggregate keeps is UTC-aware, so a
    datetime is modelled as an abstract UTC instant and converting it to
    UTC is the identity. */
module Clock {

  type Instant = int
}
