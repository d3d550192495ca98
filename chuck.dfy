/** The chuck models a lathe or mill spindle can carry. */
module Chucks {

  /** A CAM_Chuck object, referred to by its name; the pointer fields that hold one are
      `Option<Chuck>`, None standing for NULL. */
  datatype Chuck = Chuck(name: string)
}
