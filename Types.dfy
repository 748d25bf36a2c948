/** The two enumerations shared by the live session and the particle field (types.ts). */
module Types {

  /** The gesture signal a decoded tool call produces; UNKNOWN is never produced by decoding. */
  datatype HandGesture = Open | Closed | Unknown

  /** The point cloud the generator builds. */
  datatype ParticleShape = Heart | Firework
}
