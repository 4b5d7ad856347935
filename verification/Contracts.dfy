/** The records the services exchange. */
module Contracts {

  import opened Results

  type Id = string

  datatype Mode = FM | NFM | AM | USB | LSB | RAW

  datatype WindowStatus = Pending | Running | Degraded | Stopped | Faulty

  datatype ReceiverWindow = ReceiverWindow(
    id: Id, receiverId: string, centreFrequencyHz: real, sampleRateHz: real,
    serviceMinFrequencyHz: real, serviceMaxFrequencyHz: real,
    guardLowerHz: real, guardUpperHz: real, status: WindowStatus)

  datatype ChannelDefinition = ChannelDefinition(
    frequencyHz: real, mode: Mode, bandwidthHz: real, squelch: Option<real>,
    waterfallRequested: bool, audioRequested: bool)

  datatype ChannelStatus = Starting | Active | Idle | Stopping | Failing

  datatype Channel = Channel(
    id: Id, windowId: Id, definition: ChannelDefinition, status: ChannelStatus, listenerCount: int, reusable: bool)

  datatype SessionStatus = Connecting | Open | Dormant | Closed

  datatype Session = Session(
    id: Id, channelId: Id, userId: string, supportsAudio: bool, supportsWaterfall: bool, status: SessionStatus)

  /** Absent optional fields are None. */
  datatype TuneRequest = TuneRequest(
    userId: string, frequencyHz: real, mode: Mode, bandwidthHz: Option<real>, squelch: Option<real>,
    waterfallRequested: Option<bool>, audioRequested: Option<bool>)

  datatype SchedulerConfig = SchedulerConfig(maxUniqueChannels: int, maxTotalSessions: int, waterfallQuota: int)
}
