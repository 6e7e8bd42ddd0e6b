/** The messages on a UNIX connection between listener and dispatcher. */
module Channel {
  import opened DescriptorPassing
  import opened Configuration

  /** What one peek sees of the channel: the config label and body together, a descriptor message, or EXIT. */
  datatype Unit = ConfigUnit(body: Text) | DescriptorUnit(fd: int, client: nat) | ExitUnit

  function Wire(u: Unit): (w: Text)
    ensures |w| == 2 <==> u.DescriptorUnit?
    ensures |w| >= 2
  {
    match u
    case ConfigUnit(body) => LABEL + body
    case DescriptorUnit(fd, _) => Encode(fd).data
    case ExitUnit => EXIT
  }

  /** What the receiver's buffers can take: a configuration fits the read, and its lines the line buffer. */
  predicate UnitOk(u: Unit) {
    && (u.ConfigUnit? ==> |Wire(u)| <= CONFIG_BUFFER && LinesFit(Lines(Wire(u))))
    && (u.DescriptorUnit? ==> INT_MIN < u.fd <= INT_MAX)
  }
}
