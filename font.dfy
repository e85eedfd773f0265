/** Font::String (src/font.h): one line of text to draw this frame. */
module Font {

  /** std::array<int, 2> pxOffset: the pixel position of the line's lower-left corner. */
  datatype Offset = Offset(x: int, y: int)

  /** The text, its pixel offset and its font size (the glyph height in pixels).
      `data` stands for the bytes of the std::string, one `char` per byte:
      renderString gives every byte its own character slot, so a multi-byte
      UTF-8 character is as many `char`s here as it has bytes. */
  datatype String = String(data: string, pxOffset: Offset, fontSize: int)
}
