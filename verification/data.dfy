/** The optional value used wherever the source has a nullable reference. */
module Wrappers {
  datatype Option<+T> = None | Some(value: T)
}

/**
 * The record shapes exchanged between the simulation server and the client.
 * JavaScript numbers are modelled as `real`: the core only copies and
 * permutes them, it never rounds them.
 */
module Data {

  /** A decoded JSON value. */
  datatype Json =
    | JNull
    | JBool(b: bool)
    | JNumber(n: real)
    | JString(s: string)
    | JArray(items: seq<Json>)
    | JObject(fields: map<string, Json>)

  /** One inbound frame: the JSON object decoded from one text message. */
  type Frame = map<string, Json>

  /** A position triple `[number, number, number]` as sent by the server. */
  datatype Triple = Triple(0: real, 1: real, 2: real)

  /** A `[min, max]` pair. */
  datatype Range = Range(lo: real, hi: real)

  /** The first frame of a session. */
  datatype InitializationData = InitializationData(
    nodes: seq<string>,
    xRange: Range,
    yRange: Range,
    zRange: Range)

  /** Every later frame that is not a command. */
  datatype SimulationData = SimulationData(
    positions: seq<Triple>,
    simulationTime: real,
    realTime: real,
    trackedVariables: seq<Json>)

  /** An RGB triple carried by the colour commands. */
  datatype Rgb = Rgb(r: real, g: real, b: real)

  /**
   * A visualization command, discriminated by its `command` field.
   * `Other` stands for any discriminant other than the three named ones.
   */
  datatype VisualizationCommand =
    | PaintNode(nodeId: int, color: Rgb, showId: bool)
    | PaintEnvironment(color: Rgb)
    | ResizeNodes(size: real)
    | Other(command: string)
}
