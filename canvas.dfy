/**
 * The drawing calls a render callback issues, as values. The canvas itself (pixels,
 * fonts, icon bitmaps) is not modelled: a frame is the sequence of calls made.
 */
module Canvas {
  datatype Align = AlignLeft | AlignRight | AlignTop | AlignBottom | AlignCenter

  datatype Font = FontPrimary | FontSecondary

  datatype Icon = TanksSplashScreen128x64 | TankRight6x6

  datatype DrawOp =
    | DrawFrame(x: int, y: int, width: int, height: int)
    | DrawStr(x: int, y: int, text: string)
    | DrawStrAligned(x: int, y: int, horizontal: Align, vertical: Align, text: string)
    | DrawIcon(x: int, y: int, icon: Icon)
    | SetFont(font: Font)
}
