/** Values shared by the video hook and the camera page: the browser objects
    they pass around, reduced to what the page and the hook observe of them. */
module Media {

  datatype Option<+T> = None | Some(value: T)

  /** A MediaStream, told apart by identity. A camera stream has a fixed
      intrinsic frame size, which a video element reports as its
      videoWidth and videoHeight once the stream is its source. */
  datatype Stream = Stream(id: nat, frameWidth: nat, frameHeight: nat)

  /** A camera as the device collaborator lists it: its facing type
      ("Front", "Back", ...) and its live stream. */
  datatype Camera = Camera(kind: string, mediaStream: Stream)

  /** The identity of an onPlay closure. The page creates a fresh closure at
      every render; `render` numbers that render. */
  datatype Callback = Callback(render: nat)
}
